/** What every run of a room keeps: membership, the hook protocol, and what the broadcasts say. */
module RoomLaws {
  import opened Prelude
  import opened Cards
  import opened Blackjack
  import opened TableInvariants
  import opened TurnLaws
  import opened TableLaws
  import opened Room

  function Capacity(maxPlayers: int): nat { if maxPlayers < 0 then 0 else maxPlayers }

  /** Up to the first Destroy (and short of a throw) the actor and the script agree. */
  ghost predicate InStep(seated: set<PlayerId>, isPlaying: bool, cap: nat, g: Game) {
    && seated == g.players.Keys
    && (isPlaying <==> !g.phase.Waiting?)
    && TableOk(g, cap)
  }

  ghost predicate RoomOk(r: Room) {
    && (r.players != map[] ==> r.ownerID in r.players)
    && |r.players| <= Capacity(r.maxPlayers)
    && (!r.destroyed && !r.game.crashed ==> InStep(r.players.Keys, r.isPlaying, Capacity(r.maxPlayers), r.game))
    && (r.destroyed ==> !r.game.drawPending)
  }

  lemma InitOk(maxPlayers: int, turnIndex: Option<int>)
    ensures RoomOk(NewRoom(maxPlayers, turnIndex))
  {
  }

  lemma MapSizes<T>(a: map<PlayerId, T>, p: PlayerId, m: T)
    ensures |a| == |a.Keys|
    ensures (a - {p}).Keys == a.Keys - {p} && a[p := m].Keys == a.Keys + {p}
    ensures |a - {p}| == if p in a then |a| - 1 else |a|
    ensures |a[p := m]| == if p in a then |a| else |a| + 1
    ensures |a| == 0 <==> a == map[]
  {
    assert (a - {p}).Keys == a.Keys - {p};
    assert a[p := m].Keys == a.Keys + {p};
    assert p in a ==> a.Keys + {p} == a.Keys;
    assert p !in a ==> a.Keys - {p} == a.Keys;
    assert |a| == 0 ==> a.Keys == {};
  }

  lemma SameSize<A, B>(a: map<PlayerId, A>, b: map<PlayerId, B>)
    requires a.Keys == b.Keys
    ensures |a| == |b|
  {
    assert |a| == |a.Keys| && |b| == |b.Keys|;
  }

  lemma JoinInStep(seated: set<PlayerId>, cap: nat, g: Game, p: PlayerId)
    requires InStep(seated, false, cap, g) && !g.crashed && p !in seated && |seated| < cap
    ensures InStep(seated + {p}, false, cap, Join(g, p)) && !Join(g, p).crashed
  {
    assert |g.players| == |g.players.Keys|;
    TableOkKept(g, PlayerJoin(p), cap);
    assert g.players[p := NEW_SEAT].Keys == g.players.Keys + {p};
  }

  lemma LeaveInStep(seated: set<PlayerId>, isPlaying: bool, cap: nat, g: Game, p: PlayerId)
    requires InStep(seated, isPlaying, cap, g) && !g.crashed && p in seated
    ensures InStep(seated - {p}, isPlaying, cap, Leave(g, p)) && !Leave(g, p).crashed
  {
    AdvanceNeverCrashes(Unseat(g, p));
    TableOkKept(g, PlayerLeave(p), cap);
    AdvanceStops(Unseat(g, p));
    assert (g.players - {p}).Keys == g.players.Keys - {p};
  }

  /** No action moves a started game back to waiting, or changes who is seated. */
  lemma ActionPhase(g: Game, p: PlayerId, action: Action)
    requires p in g.players && !g.phase.Waiting?
    ensures !Act(g, p, action).phase.Waiting?
    ensures Act(g, p, action).players.Keys == g.players.Keys
  {
    hide AdvanceTurn, HandleBet, HandleHit, HandleStand, HandleDouble;
    match action
    case Bet(amount) => BetPhase(g, p, amount);
    case Hit => HitPhase(g, p);
    case Stand => StandPhase(g, p);
    case Double => DoublePhase(g, p);
    case Unknown =>
  }

  lemma AdvancePhase(g: Game)
    requires !g.phase.Waiting?
    ensures AdvanceTurn(g).players == g.players && !AdvanceTurn(g).phase.Waiting?
  {
    AdvanceStops(g);
  }

  lemma BetPhase(g: Game, p: PlayerId, amount: int)
    requires p in g.players && !g.phase.Waiting?
    ensures !HandleBet(g, p, amount).phase.Waiting?
    ensures HandleBet(g, p, amount).players.Keys == g.players.Keys
  {
  }

  lemma HitPhase(g: Game, p: PlayerId)
    requires p in g.players && !g.phase.Waiting?
    ensures !HandleHit(g, p).phase.Waiting?
    ensures HandleHit(g, p).players.Keys == g.players.Keys
  {
    hide AdvanceTurn, Value;
    if g.deck != [] {
      var taken := TakeCard(g, p);
      var seat := taken.players[p];
      AdvancePhase(SetSeat(taken, p, seat.(busted := true)));
      AdvancePhase(SetSeat(taken, p, seat.(stood := true)));
    }
  }

  lemma StandPhase(g: Game, p: PlayerId)
    requires p in g.players && !g.phase.Waiting?
    ensures !HandleStand(g, p).phase.Waiting?
    ensures HandleStand(g, p).players.Keys == g.players.Keys
  {
    hide AdvanceTurn;
    AdvancePhase(SetSeat(g, p, g.players[p].(stood := true)));
  }

  lemma DoublePhase(g: Game, p: PlayerId)
    requires p in g.players && !g.phase.Waiting?
    ensures !HandleDouble(g, p).phase.Waiting?
    ensures HandleDouble(g, p).players.Keys == g.players.Keys
  {
    hide AdvanceTurn, Value;
    if g.deck != [] {
      var taken := TakeCard(DoubleBet(g, p), p);
      var seat := taken.players[p];
      AdvancePhase(SetSeat(taken, p, seat.(stood := true, busted := seat.busted || Value(seat.hand) > 21)));
    }
  }

  lemma ActionInStep(seated: set<PlayerId>, cap: nat, g: Game, p: PlayerId, action: Action)
    requires InStep(seated, true, cap, g) && !g.crashed && p in seated && !Act(g, p, action).crashed
    ensures InStep(seated, true, cap, Act(g, p, action))
  {
    ActionPhase(g, p, action);
    TableOkKept(g, PlayerAction(p, action), cap);
  }

  lemma DrawInStep(seated: set<PlayerId>, isPlaying: bool, cap: nat, g: Game)
    requires InStep(seated, isPlaying, cap, g) && !g.crashed && g.drawPending && !Draw(g).crashed
    ensures InStep(seated, isPlaying, cap, Draw(g))
  {
    TableOkKept(g, DealerDraw, cap);
    if Value(g.dealerHand) >= 17 {
      ResolveSettles(g.(drawPending := false));
    }
  }

  lemma JoinOk(r: Room, p: PlayerId, info: Option<string>)
    requires RoomOk(r)
    ensures RoomOk(HandleJoin(r, p, info))
  {
    hide TableOk, AdvanceTurn, Leave, Act, Draw, Start;
    if !r.isPlaying && |r.players| < r.maxPlayers && p !in r.players && info.Some? {
      MapSizes(r.players, p, Member(info.value, false));
      if !r.destroyed && !r.game.crashed {
        JoinInStep(r.players.Keys, Capacity(r.maxPlayers), r.game, p);
      }
    }
  }

  /** The room's side of a leave. */
  lemma LeaveRoom(r: Room, p: PlayerId, heir: PlayerId)
    requires p in r.players
    ensures var t := HandleLeave(r, p, heir);
      && t.players == r.players - {p} && t.maxPlayers == r.maxPlayers
      && t.isPlaying == r.isPlaying && t.destroyed == r.destroyed
      && t.game == (if r.destroyed then r.game else Play(r.game, PlayerLeave(p)))
      && (r.ownerID in r.players && t.players != map[] ==> t.ownerID in t.players)
  {
    hide Play;
    MapSizes(r.players - {p}, p, r.players[p]);
  }

  lemma LeaveOk(r: Room, p: PlayerId, t: Room)
    requires RoomOk(r) && p in r.players
    requires t.players == r.players - {p} && t.maxPlayers == r.maxPlayers
    requires t.isPlaying == r.isPlaying && t.destroyed == r.destroyed
    requires t.game == if r.destroyed then r.game else Play(r.game, PlayerLeave(p))
    requires r.ownerID in r.players && t.players != map[] ==> t.ownerID in t.players
    ensures RoomOk(t)
  {
    hide TableOk, AdvanceTurn, Join, Leave, Act, Draw, Start;
    MapSizes(r.players, p, r.players[p]);
    if !r.destroyed && !r.game.crashed {
      LeaveInStep(r.players.Keys, r.isPlaying, Capacity(r.maxPlayers), r.game, p);
    }
  }

  lemma NobodyLeaves(r: Room, p: PlayerId, heir: PlayerId)
    requires p !in r.players
    ensures HandleLeave(r, p, heir) == r
  {
  }

  lemma ReadyOk(r: Room, p: PlayerId)
    requires RoomOk(r)
    ensures RoomOk(HandleReady(r, p))
  {
    hide InStep;
    if p in r.players {
      MapSizes(r.players, p, r.players[p].(isReady := true));
      assert r.players.Keys + {p} == r.players.Keys;
    }
  }

  lemma ActionOk(r: Room, p: PlayerId, action: Action)
    requires RoomOk(r)
    ensures RoomOk(HandleAction(r, p, action))
  {
    hide Act, AdvanceTurn, TableOk;
    if r.isPlaying && p in r.players && !r.destroyed && !r.game.crashed && !Act(r.game, p, action).crashed {
      ActionInStep(r.players.Keys, Capacity(r.maxPlayers), r.game, p, action);
    }
  }

  lemma StartOk(r: Room, clock: seq<int>)
    requires RoomOk(r)
    ensures RoomOk(HandleStart(r, clock))
  {
    if !r.isPlaying && !r.destroyed && !r.game.crashed {
      TableOkKept(r.game, GameStart(clock), Capacity(r.maxPlayers));
    }
  }

  lemma DrawOk(r: Room)
    requires RoomOk(r)
    ensures RoomOk(Next(r, TimerFires))
  {
    if !r.destroyed && r.game.drawPending && !r.game.crashed && !Draw(r.game).crashed {
      DrawInStep(r.players.Keys, r.isPlaying, Capacity(r.maxPlayers), r.game);
    }
  }

  lemma QuietOk(r: Room, msg: Message)
    requires RoomOk(r)
    requires msg.MsgGameTick? || msg.MsgTimer? || msg.MsgRestore? || msg.MsgShutdown? || msg.MsgOther?
    ensures RoomOk(Handle(r, msg))
  {
    hide Play, TableOk;
  }

  lemma RoomOkKept(r: Room, step: Step)
    requires RoomOk(r)
    ensures RoomOk(Next(r, step))
  {
    hide RoomOk, Play, HandleJoin, HandleLeave, HandleReady, HandleAction, HandleStart, HandleShutdown;
    match step
    case TimerFires => DrawOk(r);
    case Deliver(msg) =>
      match msg {
        case MsgPlayerJoin(p, info) => JoinOk(r, p, info);
        case MsgPlayerLeave(p, heir) =>
          if p in r.players {
            LeaveRoom(r, p, heir);
            LeaveOk(r, p, Next(r, step));
          } else {
            NobodyLeaves(r, p, heir);
          }
        case MsgPlayerReady(p) => ReadyOk(r, p);
        case MsgPlayerAction(p, action) => ActionOk(r, p, action);
        case MsgGameStart(clock) => StartOk(r, clock);
        case _ => QuietOk(r, msg);
      }
  }

  lemma {:induction false} RunFromOk(r: Room, steps: seq<Step>)
    requires RoomOk(r)
    ensures RoomOk(RunFrom(r, steps))
    decreases |steps|
  {
    if steps != [] {
      RunFromOk(r, steps[..|steps| - 1]);
      RoomOkKept(RunFrom(r, steps[..|steps| - 1]), steps[|steps| - 1]);
    }
  }

  lemma TableMembers(g: Game, cap: nat)
    requires TableOk(g, cap)
    ensures NoDup(g.turnOrder) && (set p | p in g.turnOrder) == g.players.Keys
  {
    assert Members(g);
  }

  /**
    In every run up to the first Destroy, short of a throw: the actor's players, the script's
    players and the turn order are the same set, the turn order has no duplicates, the room is
    playing exactly when the script has left its waiting phase, and the table is consistent.
  */
  lemma MembershipAgrees(maxPlayers: int, turnIndex: Option<int>, steps: seq<Step>)
    ensures var r := Run(maxPlayers, turnIndex, steps);
      !r.destroyed && !r.game.crashed ==>
        && r.players.Keys == r.game.players.Keys == (set p | p in r.game.turnOrder)
        && NoDup(r.game.turnOrder)
        && (r.isPlaying <==> !r.game.phase.Waiting?)
        && TableOk(r.game, Capacity(maxPlayers))
  {
    hide Next, TableOk, NewRoom, RunFrom;
    RunOk(maxPlayers, turnIndex, steps);
    var r := Run(maxPlayers, turnIndex, steps);
    if !r.destroyed && !r.game.crashed {
      TableMembers(r.game, Capacity(maxPlayers));
    }
  }

  lemma RunOk(maxPlayers: int, turnIndex: Option<int>, steps: seq<Step>)
    ensures RoomOk(Run(maxPlayers, turnIndex, steps))
    ensures Run(maxPlayers, turnIndex, steps).maxPlayers == maxPlayers
  {
    hide Next, InStep, RunFrom;
    InitOk(maxPlayers, turnIndex);
    RunFromOk(NewRoom(maxPlayers, turnIndex), steps);
    MaxPlayersFixed(NewRoom(maxPlayers, turnIndex), steps);
  }

  lemma {:induction false} MaxPlayersFixed(r: Room, steps: seq<Step>)
    ensures RunFrom(r, steps).maxPlayers == r.maxPlayers
    decreases |steps|
  {
    if steps != [] {
      MaxPlayersFixed(r, steps[..|steps| - 1]);
    }
  }

  /** The owner is always seated and the room never exceeds its capacity, in every run whatsoever. */
  lemma OwnerSeated(maxPlayers: int, turnIndex: Option<int>, steps: seq<Step>)
    ensures var r := Run(maxPlayers, turnIndex, steps);
      (r.players != map[] ==> r.ownerID in r.players) && |r.players| <= Capacity(maxPlayers)
  {
    hide Next, InStep, RunFrom, NewRoom;
    RunOk(maxPlayers, turnIndex, steps);
  }

  lemma RunStep(maxPlayers: int, turnIndex: Option<int>, steps: seq<Step>)
    requires steps != []
    ensures var front, last := steps[..|steps| - 1], steps[|steps| - 1];
      Run(maxPlayers, turnIndex, steps) == Next(Run(maxPlayers, turnIndex, front), last)
  {
    hide Next;
  }

  /** With at most 67 seats the script never throws: no reachable pop finds the deck empty. */
  lemma {:induction false} DeckNeverRunsOut(maxPlayers: int, turnIndex: Option<int>, steps: seq<Step>)
    requires maxPlayers <= SAFE_SEATS
    ensures !Run(maxPlayers, turnIndex, steps).game.crashed
    decreases |steps|
  {
    hide RoomOk, HandleJoin, HandleReady, HandleStart;
    if steps != [] {
      var front, last := steps[..|steps| - 1], steps[|steps| - 1];
      DeckNeverRunsOut(maxPlayers, turnIndex, front);
      RunOk(maxPlayers, turnIndex, front);
      StepNeverCrashes(Run(maxPlayers, turnIndex, front), last);
      RunStep(maxPlayers, turnIndex, steps);
    }
  }

  lemma StepNeverCrashes(r: Room, step: Step)
    requires RoomOk(r) && r.maxPlayers <= SAFE_SEATS && !r.game.crashed
    ensures !Next(r, step).game.crashed
  {
    hide Act, AdvanceTurn, TableOk, HandleLeave, Draw;
    match step
    case TimerFires =>
      if !r.destroyed && r.game.drawPending {
        NeverCrashes(r.game, DealerDraw, Capacity(r.maxPlayers));
      }
    case Deliver(msg) =>
      match msg {
        case MsgPlayerLeave(p, heir) => LeaveNeverCrashes(r, p, heir);
        case MsgPlayerAction(p, action) =>
          if !r.destroyed && r.isPlaying && p in r.players {
            NeverCrashes(r.game, PlayerAction(p, action), Capacity(r.maxPlayers));
          }
        case _ =>
      }
  }

  lemma LeaveNeverCrashes(r: Room, p: PlayerId, heir: PlayerId)
    requires !r.game.crashed
    ensures !HandleLeave(r, p, heir).game.crashed
  {
    hide Play;
    PlayedLeave(r.game, p);
  }

  lemma PlayedLeave(g: Game, p: PlayerId)
    requires !g.crashed
    ensures !Play(g, PlayerLeave(p)).crashed
  {
    hide AdvanceTurn;
    AdvanceNeverCrashes(Unseat(g, p));
  }

  // ----- The hook protocol -----

  /** What the script may assume of the calls it gets. */
  datatype Protocol = Protocol(seated: set<PlayerId>, started: bool, ended: bool)

  predicate HookLegal(s: Protocol, h: Hook) {
    && !s.ended
    && match h
       case OnPlayerJoin(p) => !s.started && p !in s.seated
       case OnPlayerLeave(p) => p in s.seated
       case OnGameStart => !s.started
       case OnPlayerAction(p, _) => s.started && p in s.seated
       case OnTick => s.started
       case OnGameEnd => s.started
       case OnTimer => true
       case OnRestore => true
  }

  function AfterHook(s: Protocol, h: Hook): Protocol {
    match h
    case OnPlayerJoin(p) => s.(seated := s.seated + {p})
    case OnPlayerLeave(p) => s.(seated := s.seated - {p})
    case OnGameStart => s.(started := true)
    case OnGameEnd => s.(ended := true)
    case _ => s
  }

  function AfterHooks(hooks: seq<Hook>): Protocol {
    if hooks == [] then Protocol({}, false, false)
    else AfterHook(AfterHooks(hooks[..|hooks| - 1]), hooks[|hooks| - 1])
  }

  ghost predicate TraceLegal(hooks: seq<Hook>) {
    forall i :: 0 <= i < |hooks| ==> HookLegal(AfterHooks(hooks[..i]), hooks[i])
  }

  ghost predicate HooksOk(r: Room) {
    && TraceLegal(r.hooks)
    && (!r.destroyed ==> AfterHooks(r.hooks) == Protocol(r.players.Keys, r.isPlaying, false))
  }

  lemma TraceExtends(hooks: seq<Hook>, h: Hook)
    requires TraceLegal(hooks) && HookLegal(AfterHooks(hooks), h)
    ensures TraceLegal(hooks + [h])
    ensures AfterHooks(hooks + [h]) == AfterHook(AfterHooks(hooks), h)
  {
    var all := hooks + [h];
    assert all[..|hooks|] == hooks;
    forall i | 0 <= i < |all| ensures HookLegal(AfterHooks(all[..i]), all[i]) {
      if i < |hooks| {
        assert all[..i] == hooks[..i];
      }
    }
  }

  lemma HookTriggered(r: Room, h: Hook, after: Room)
    requires HooksOk(r) && !r.destroyed
    requires HookLegal(Protocol(r.players.Keys, r.isPlaying, false), h)
    requires after.hooks == r.hooks + [h]
    requires !after.destroyed ==>
      AfterHook(Protocol(r.players.Keys, r.isPlaying, false), h) == Protocol(after.players.Keys, after.isPlaying, false)
    ensures HooksOk(after)
  {
    TraceExtends(r.hooks, h);
  }

  lemma HooksOkKept(r: Room, step: Step)
    requires HooksOk(r)
    ensures HooksOk(Next(r, step))
  {
    hide Play, HooksOk, HandleJoin, HandleLeave, HandleReady, HandleAction, HandleStart, HandleShutdown;
    if step.Deliver? {
      match step.msg
      case MsgPlayerJoin(p, info) => JoinHooks(r, p, info);
      case MsgPlayerLeave(p, heir) => LeaveHooks(r, p, heir);
      case MsgPlayerReady(p) => ReadyHooks(r, p);
      case MsgPlayerAction(p, action) => ActionHooks(r, p, action);
      case MsgGameStart(clock) => StartHooks(r, clock);
      case MsgShutdown => ShutdownHooks(r);
      case _ => NoticeHooks(r, step.msg);
    } else {
      DrawHooks(r);
    }
  }

  lemma NoticeHooks(r: Room, msg: Message)
    requires HooksOk(r)
    requires msg.MsgGameTick? || msg.MsgTimer? || msg.MsgRestore? || msg.MsgOther?
    ensures HooksOk(Handle(r, msg))
  {
    if !r.destroyed {
      var after := Handle(r, msg);
      match msg
      case MsgGameTick => if r.isPlaying { HookTriggered(r, OnTick, after); }
      case MsgTimer(hasData) => if hasData { HookTriggered(r, OnTimer, after); }
      case MsgRestore => HookTriggered(r, OnRestore, after);
      case MsgOther =>
    }
  }

  lemma DrawHooks(r: Room)
    requires HooksOk(r)
    ensures HooksOk(Next(r, TimerFires))
  {
    hide Play;
  }

  lemma ReadyHooks(r: Room, p: PlayerId)
    requires HooksOk(r)
    ensures HooksOk(HandleReady(r, p))
  {
    if p in r.players {
      MapSizes(r.players, p, r.players[p].(isReady := true));
      assert r.players.Keys + {p} == r.players.Keys;
    }
  }

  lemma ActionHooks(r: Room, p: PlayerId, action: Action)
    requires HooksOk(r)
    ensures HooksOk(HandleAction(r, p, action))
  {
    hide Play;
    if p in r.players && r.isPlaying && !r.destroyed {
      HookTriggered(r, OnPlayerAction(p, action), HandleAction(r, p, action));
    }
  }

  lemma StartHooks(r: Room, clock: seq<int>)
    requires HooksOk(r)
    ensures HooksOk(HandleStart(r, clock))
  {
    hide Play;
    if !r.isPlaying && !r.destroyed {
      HookTriggered(r, OnGameStart, HandleStart(r, clock));
    }
  }

  lemma ShutdownHooks(r: Room)
    requires HooksOk(r)
    ensures HooksOk(HandleShutdown(r))
  {
    if r.isPlaying && !r.destroyed {
      HookTriggered(r, OnGameEnd, HandleShutdown(r));
    }
  }

  lemma JoinHooks(r: Room, p: PlayerId, info: Option<string>)
    requires HooksOk(r)
    ensures HooksOk(HandleJoin(r, p, info))
  {
    hide Play;
    if !r.isPlaying && |r.players| < r.maxPlayers && p !in r.players && info.Some? && !r.destroyed {
      MapSizes(r.players, p, Member(info.value, false));
      HookTriggered(r, OnPlayerJoin(p), HandleJoin(r, p, info));
    }
  }

  lemma LeaveHooks(r: Room, p: PlayerId, heir: PlayerId)
    requires HooksOk(r)
    ensures HooksOk(HandleLeave(r, p, heir))
  {
    hide Play;
    if p in r.players && !r.destroyed {
      MapSizes(r.players, p, r.players[p]);
      HookTriggered(r, OnPlayerLeave(p), HandleLeave(r, p, heir));
    }
  }

  /**
    Hook protocol: in every run the calls into the script are joins of unseated players, then at
    most one start, then leaves and actions of seated players and ticks; the game's end comes
    last and only if it started.  Until Destroy the trace also says who is seated.
  */
  lemma {:induction false} HookProtocol(maxPlayers: int, turnIndex: Option<int>, steps: seq<Step>)
    ensures HooksOk(Run(maxPlayers, turnIndex, steps))
    decreases |steps|
  {
    if steps != [] {
      HookProtocol(maxPlayers, turnIndex, steps[..|steps| - 1]);
      HooksOkKept(Run(maxPlayers, turnIndex, steps[..|steps| - 1]), steps[|steps| - 1]);
    }
  }

  // ----- The broadcasts determine the room -----

  /** What a listener knows of the room. */
  datatype Seen = Seen(ready: map<PlayerId, bool>, owner: PlayerId)

  function See(s: Seen, e: Event): Seen {
    match e
    case PlayerJoined(p, _) => Seen(s.ready[p := false], if s.ready == map[] then p else s.owner)
    case PlayerLeft(p) => s.(ready := s.ready - {p})
    case PlayerReady(p) => s.(ready := s.ready[p := true])
    case OwnerChange(owner) => s.(owner := owner)
    case _ => s
  }

  function SeenAfter(events: seq<Event>): Seen {
    if events == [] then Seen(map[], EMPTY_ID) else See(SeenAfter(events[..|events| - 1]), events[|events| - 1])
  }

  function ReadyFlags(players: map<PlayerId, Member>): map<PlayerId, bool> {
    map p | p in players :: players[p].isReady
  }

  predicate AllTrue(ready: map<PlayerId, bool>) {
    forall p :: p in ready ==> ready[p]
  }

  /** Events that answer an earlier one come exactly where the listener expects them. */
  ghost predicate EventFits(events: seq<Event>, i: nat)
    requires i < |events|
  {
    var before := SeenAfter(events[..i]);
    && (events[i].PlayerJoined? ==> events[i].p !in before.ready && events[i].count == |before.ready| + 1)
    && (events[i].AllReady? <==> i > 0 && events[i - 1].PlayerReady? && AllTrue(before.ready))
    && (events[i].AllReady? ==> events[i].count == |before.ready|)
    && (events[i].OwnerChange? ==> events[i].owner in before.ready)
    && (events[i].OwnerChange? <==> i > 0 && events[i - 1] == PlayerLeft(before.owner) && before.ready != map[])
  }

  ghost predicate EventsOk(r: Room) {
    && SeenAfter(r.events) == Seen(ReadyFlags(r.players), r.ownerID)
    && (forall i :: 0 <= i < |r.events| ==> EventFits(r.events, i))
    && Settled(r.events)
  }

  /** Nothing is owed to the listener: a hand-over or an all-ready has been sent if it was due. */
  ghost predicate Settled(events: seq<Event>) {
    events != [] ==>
      var last, now := events[|events| - 1], SeenAfter(events);
      && !(last.PlayerReady? && AllTrue(now.ready))
      && !(last == PlayerLeft(now.owner) && now.ready != map[])
  }

  lemma EventAppended(events: seq<Event>, e: Event)
    requires forall i :: 0 <= i < |events| ==> EventFits(events, i)
    requires EventFits(events + [e], |events|)
    ensures forall i :: 0 <= i < |events + [e]| ==> EventFits(events + [e], i)
    ensures SeenAfter(events + [e]) == See(SeenAfter(events), e)
  {
    var all := events + [e];
    assert all[..|events|] == events;
    forall i | 0 <= i < |all| ensures EventFits(all, i) {
      if i < |events| {
        assert all[..i] == events[..i];
        assert EventFits(events, i);
      }
    }
  }

  /** A notice that changes nothing the listener knows. */
  lemma PlainEvent(events: seq<Event>, e: Event)
    requires forall i :: 0 <= i < |events| ==> EventFits(events, i)
    requires Settled(events)
    requires e.Error? || e.Status? || e.GameStarted?
    ensures forall i :: 0 <= i < |events + [e]| ==> EventFits(events + [e], i)
    ensures SeenAfter(events + [e]) == SeenAfter(events)
    ensures Settled(events + [e])
  {
    assert (events + [e])[..|events|] == events;
    EventAppended(events, e);
  }

  lemma FlagsOf(players: map<PlayerId, Member>, p: PlayerId, m: Member)
    ensures ReadyFlags(players[p := m]) == ReadyFlags(players)[p := m.isReady]
    ensures ReadyFlags(players - {p}) == ReadyFlags(players) - {p}
    ensures |ReadyFlags(players)| == |players|
    ensures Everyone(players) <==> AllTrue(ReadyFlags(players))
  {
    assert ReadyFlags(players).Keys == players.Keys;
    SameSize(ReadyFlags(players), players);
    if AllTrue(ReadyFlags(players)) {
      assert forall q :: q in players ==> ReadyFlags(players)[q];
    }
  }

  lemma PlainEvents(r: Room, e: Event, after: Room)
    requires EventsOk(r) && (e.Error? || e.Status? || e.GameStarted?)
    requires after.events == r.events + [e] && after.players == r.players && after.ownerID == r.ownerID
    ensures EventsOk(after)
  {
    PlainEvent(r.events, e);
  }

  /** The listener's book-keeping, on the event log alone. */
  ghost predicate LogOk(events: seq<Event>, now: Seen) {
    && SeenAfter(events) == now
    && (forall i :: 0 <= i < |events| ==> EventFits(events, i))
  }

  lemma LogAppend(events: seq<Event>, now: Seen, e: Event)
    requires LogOk(events, now)
    requires e.PlayerJoined? ==> e.p !in now.ready && e.count == |now.ready| + 1
    requires e.AllReady? <==> events != [] && events[|events| - 1].PlayerReady? && AllTrue(now.ready)
    requires e.AllReady? ==> e.count == |now.ready|
    requires e.OwnerChange? ==> e.owner in now.ready
    requires e.OwnerChange? <==>
      events != [] && events[|events| - 1] == PlayerLeft(now.owner) && now.ready != map[]
    ensures LogOk(events + [e], See(now, e))
  {
    hide SeenAfter, See, AllTrue;
    assert (events + [e])[..|events|] == events;
    EventAppended(events, e);
  }

  lemma JoinLog(events: seq<Event>, now: Seen, p: PlayerId, count: nat)
    requires LogOk(events, now) && Settled(events)
    requires p !in now.ready && count == |now.ready| + 1
    ensures LogOk(events + [PlayerJoined(p, count)], See(now, PlayerJoined(p, count)))
    ensures Settled(events + [PlayerJoined(p, count)])
  {
    hide SeenAfter, EventFits;
    LogAppend(events, now, PlayerJoined(p, count));
  }

  lemma JoinEvents(r: Room, p: PlayerId, info: Option<string>)
    requires EventsOk(r)
    ensures EventsOk(HandleJoin(r, p, info))
  {
    hide Play, SeenAfter, EventFits, Settled;
    var after := HandleJoin(r, p, info);
    if r.isPlaying || |r.players| >= r.maxPlayers {
      PlainEvents(r, Error(p, if r.isPlaying then 46402 else 46901), after);
    } else if p !in r.players && info.Some? {
      var m := Member(info.value, false);
      FlagsOf(r.players, p, m);
      MapSizes(r.players, p, m);
      MapSizes(ReadyFlags(r.players), p, false);
      JoinLog(r.events, Seen(ReadyFlags(r.players), r.ownerID), p, |after.players|);
    }
  }

  /** A departure, and the hand-over it calls for. */
  lemma LeaveLog(events: seq<Event>, now: Seen, p: PlayerId, heir: PlayerId)
    requires LogOk(events, now) && Settled(events) && p in now.ready
    requires heir in now.ready && heir != p
    ensures var left := events + [PlayerLeft(p)];
      if now.owner == p
      then LogOk(left + [OwnerChange(heir)], Seen(now.ready - {p}, heir)) && Settled(left + [OwnerChange(heir)])
      else LogOk(left, Seen(now.ready - {p}, now.owner)) && Settled(left)
  {
    hide SeenAfter, EventFits;
    var left := events + [PlayerLeft(p)];
    LogAppend(events, now, PlayerLeft(p));
    if now.owner == p {
      assert heir in now.ready - {p};
      LogAppend(left, See(now, PlayerLeft(p)), OwnerChange(heir));
    }
  }

  /** The last departure: nobody is left to hand over to. */
  lemma LastLeaveLog(events: seq<Event>, now: Seen, p: PlayerId)
    requires LogOk(events, now) && Settled(events) && p in now.ready && now.ready - {p} == map[]
    ensures LogOk(events + [PlayerLeft(p)], Seen(map[], now.owner)) && Settled(events + [PlayerLeft(p)])
  {
    hide SeenAfter, EventFits;
    LogAppend(events, now, PlayerLeft(p));
  }

  /** The events of a leave: the departure, then the hand-over if the owner left members behind. */
  lemma LeaveEvents(r: Room, p: PlayerId, heir: PlayerId)
    requires EventsOk(r)
    ensures EventsOk(HandleLeave(r, p, heir))
  {
    hide Play, SeenAfter, EventFits, Settled;
    if p in r.players {
      var rest := r.players - {p};
      var now := Seen(ReadyFlags(r.players), r.ownerID);
      FlagsOf(r.players, p, r.players[p]);
      MapSizes(rest, p, r.players[p]);
      if |rest| > 0 {
        assert forall q :: q in rest ==> q in now.ready;
        LeaveLog(r.events, now, p, Heir(rest, heir));
      } else {
        assert rest == map[] && ReadyFlags(rest) == map[];
        LastLeaveLog(r.events, now, p);
        PlainEvent(r.events + [PlayerLeft(p)], Status(StatusClosed));
      }
    }
  }

  lemma ReadyLog(events: seq<Event>, now: Seen, p: PlayerId)
    requires LogOk(events, now) && Settled(events) && p in now.ready
    ensures var marked := events + [PlayerReady(p)];
      var after := Seen(now.ready[p := true], now.owner);
      if AllTrue(after.ready)
      then LogOk(marked + [AllReady(|after.ready|)], after) && Settled(marked + [AllReady(|after.ready|)])
      else LogOk(marked, after) && Settled(marked)
  {
    hide SeenAfter, EventFits, AllTrue;
    var after := Seen(now.ready[p := true], now.owner);
    LogAppend(events, now, PlayerReady(p));
    if AllTrue(after.ready) {
      LogAppend(events + [PlayerReady(p)], after, AllReady(|after.ready|));
    }
  }

  /** The events of a ready: the mark, then all-ready exactly if nobody is missing. */
  lemma ReadyEvents(r: Room, p: PlayerId)
    requires EventsOk(r)
    ensures EventsOk(HandleReady(r, p))
  {
    hide SeenAfter, EventFits, Settled, AllTrue;
    if p in r.players {
      var m := r.players[p].(isReady := true);
      FlagsOf(r.players, p, m);
      FlagsOf(r.players[p := m], p, m);
      ReadyLog(r.events, Seen(ReadyFlags(r.players), r.ownerID), p);
    }
  }

  lemma OtherEvents(r: Room, step: Step)
    requires EventsOk(r)
    requires step.Deliver? ==> !step.msg.MsgPlayerJoin? && !step.msg.MsgPlayerLeave? && !step.msg.MsgPlayerReady?
    ensures EventsOk(Next(r, step))
  {
    hide Play, EventsOk, Destroy;
    var after := Next(r, step);
    if step.Deliver? {
      match step.msg
      case MsgPlayerAction(p, action) =>
        if !r.isPlaying {
          PlainEvents(r, Error(p, 46001), after);
        } else if after.events != r.events {
          PlainEvents(r, Error(p, 47001), after);
        } else {
          SameEvents(r, after);
        }
      case MsgGameStart(clock) =>
        if !r.isPlaying {
          var started := r.(events := r.events + [Status(StatusPlaying)]);
          PlainEvents(r, Status(StatusPlaying), started);
          PlainEvents(started, GameStarted, after);
        }
      case MsgShutdown => PlainEvents(r, Status(StatusClosed), after);
      case _ => SameEvents(r, after);
    } else {
      SameEvents(r, after);
    }
  }

  lemma SameEvents(r: Room, after: Room)
    requires EventsOk(r)
    requires after.events == r.events && after.players == r.players && after.ownerID == r.ownerID
    ensures EventsOk(after)
  {
  }

  lemma EventsOkKept(r: Room, step: Step)
    requires EventsOk(r)
    ensures EventsOk(Next(r, step))
  {
    hide EventsOk, HandleJoin, HandleLeave, HandleReady, HandleAction, HandleStart, HandleShutdown, Play;
    if step.Deliver? && step.msg.MsgPlayerJoin? {
      JoinEvents(r, step.msg.p, step.msg.info);
    } else if step.Deliver? && step.msg.MsgPlayerLeave? {
      LeaveEvents(r, step.msg.p, step.msg.heir);
    } else if step.Deliver? && step.msg.MsgPlayerReady? {
      ReadyEvents(r, step.msg.p);
    } else {
      OtherEvents(r, step);
    }
  }

  /**
    The broadcasts determine the room: in every run, folding them yields exactly the actor's
    players, their ready flags and the owner; all_ready follows a ready mark exactly when the
    listener sees everybody ready, and owner_change follows the owner's departure exactly when
    somebody is left.
  */
  lemma {:induction false} BroadcastsDetermineRoom(maxPlayers: int, turnIndex: Option<int>, steps: seq<Step>)
    ensures EventsOk(Run(maxPlayers, turnIndex, steps))
    decreases |steps|
  {
    if steps != [] {
      BroadcastsDetermineRoom(maxPlayers, turnIndex, steps[..|steps| - 1]);
      EventsOkKept(Run(maxPlayers, turnIndex, steps[..|steps| - 1]), steps[|steps| - 1]);
    } else {
      assert ReadyFlags(map[]) == map[];
    }
  }
}
