/** What holds of a whole round: turns, termination, the dealer, the settlement and the chips. */
module RoundLaws {
  import opened Prelude
  import opened Cards
  import opened Blackjack
  import opened TableInvariants
  import opened TurnLaws
  import opened TableLaws
  import opened Room
  import opened RoomLaws

  /** A room whose script is alive: not destroyed, and no hook threw. */
  predicate Live(r: Room) { !r.destroyed && !r.game.crashed }

  // ----- Turns -----

  ghost predicate IsPassed(g: Game, p: PlayerId) {
    exists j :: 0 <= j < g.currentPlayerIndex && j < |g.turnOrder| && g.turnOrder[j] == p
  }

  /** From the deal on, `p` is passed or gone whenever the round is still in its playing phase. */
  ghost predicate DoneOrGone(g: Game, p: PlayerId) {
    InPlay(g.phase) && (g.phase.Playing? && p in g.turnOrder ==> IsPassed(g, p))
  }

  lemma AdvanceKeepsDone(g: Game, p: PlayerId)
    requires g.phase.Playing?
    requires p in g.turnOrder ==>
      exists j :: 0 <= j <= g.currentPlayerIndex && j < |g.turnOrder| && g.turnOrder[j] == p
    ensures DoneOrGone(AdvanceTurn(g), p)
  {
    hide Value, Weigh;
    AdvanceStops(g);
    var r := AdvanceTurn(g);
    if r.phase.Playing? && p in r.turnOrder {
      var j :| 0 <= j <= g.currentPlayerIndex && j < |g.turnOrder| && g.turnOrder[j] == p;
      assert j < r.currentPlayerIndex && r.turnOrder[j] == p;
    }
  }

  lemma LeaveKeepsDone(g: Game, p: PlayerId, q: PlayerId)
    requires Members(g) && DoneOrGone(g, p) && q in g.players
    ensures DoneOrGone(Leave(g, q), p)
  {
    hide AdvanceTurn, Value, Weigh, Departure, IndexOf;
    var left := Unseat(g, q);
    var i := IndexOf(g.turnOrder, q);
    assert left.turnOrder == Without(g.turnOrder, i);
    WithoutNoDup(g.turnOrder, i);
    if g.phase.Playing? && |left.turnOrder| > 0 {
      if p in left.turnOrder {
        assert p in g.turnOrder;
        var j :| 0 <= j < g.currentPlayerIndex && j < |g.turnOrder| && g.turnOrder[j] == p;
        assert left.turnOrder[if j < i then j else j - 1] == p;
      }
      AdvanceKeepsDone(left, p);
    }
  }

  lemma SameOrderKeepsDone(g: Game, h: Game, p: PlayerId)
    requires DoneOrGone(g, p) && g.phase.Playing?
    requires h.phase == g.phase && h.turnOrder == g.turnOrder && h.currentPlayerIndex == g.currentPlayerIndex
    ensures DoneOrGone(AdvanceTurn(h), p) && DoneOrGone(h, p)
  {
    hide AdvanceTurn;
    if p in g.turnOrder {
      var j :| 0 <= j < g.currentPlayerIndex && j < |g.turnOrder| && g.turnOrder[j] == p;
      assert h.turnOrder[j] == p;
    }
    AdvanceKeepsDone(h, p);
  }

  lemma ActKeepsDone(g: Game, p: PlayerId, q: PlayerId, action: Action)
    requires DoneOrGone(g, p) && q in g.players
    ensures DoneOrGone(Act(g, q, action), p)
  {
    hide AdvanceTurn, Value, Weigh;
    match action
    case Bet(_) =>
    case Unknown =>
    case Hit =>
      if g.phase.Playing? && IsCurrent(g, q) && g.deck != [] {
        HitIsOneChange(g, q);
        SameOrderKeepsDone(g, HitTable(g, q), p);
      }
    case Stand =>
      if g.phase.Playing? {
        SameOrderKeepsDone(g, SetSeat(g, q, g.players[q].(stood := true)), p);
      }
    case Double =>
      if g.phase.Playing? && DoubleTurn(g, q) && |g.players[q].hand| == 2 && g.deck != []
         && g.players[q].chips >= g.players[q].bet {
        DoubleIsOneChange(g, q);
        SameOrderKeepsDone(g, DoubledTable(g, q), p);
      }
  }

  lemma DrawKeepsDone(g: Game, p: PlayerId)
    requires DoneOrGone(g, p) && g.phase.Dealer?
    ensures DoneOrGone(Draw(g), p)
  {
    hide Value, Weigh;
  }

  lemma StepKeepsDone(r: Room, p: PlayerId, step: Step)
    requires RoomOk(r) && DoneOrGone(r.game, p)
    ensures DoneOrGone(Next(r, step).game, p)
  {
    hide DoneOrGone, TableOk, Leave, Act, Draw, Join, AdvanceTurn;
    if Live(r) {
      PlayOf(r, step);
      assert TableOk(r.game, Capacity(r.maxPlayers));
      TablePhases(r.game, Capacity(r.maxPlayers), p);
      match step
      case TimerFires => if r.game.drawPending { DrawKeepsDone(r.game, p); }
      case Deliver(msg) =>
        match msg {
          case MsgPlayerLeave(q, _) => if q in r.players { LeaveKeepsDone(r.game, p, q); }
          case MsgPlayerAction(q, action) => if r.isPlaying && q in r.players { ActKeepsDone(r.game, p, q, action); }
          case MsgShutdown => DestroyKeepsDone(r.game, p);
          case _ =>
        }
    } else {
      FrozenGame(r, step);
      DestroyKeepsDone(r.game, p);
    }
  }

  lemma TablePhases(g: Game, cap: nat, p: PlayerId)
    requires TableOk(g, cap)
    ensures Members(g)
    ensures g.drawPending ==> g.phase.Dealer?
    ensures DoneOrGone(g, p) ==> !g.phase.Waiting?
  {
  }

  lemma DestroyKeepsDone(g: Game, p: PlayerId)
    requires DoneOrGone(g, p)
    ensures DoneOrGone(Destroy(g), p)
  {
  }

  /** What a step does to the script's state while the script is alive. */
  function GameAfter(r: Room, step: Step): Game {
    match step
    case TimerFires => if r.game.drawPending then Draw(r.game) else r.game
    case Deliver(msg) =>
      match msg {
        case MsgPlayerJoin(p, info) =>
          if !r.isPlaying && |r.players| < r.maxPlayers && p !in r.players && info.Some?
          then Join(r.game, p) else r.game
        case MsgPlayerLeave(p, _) => if p in r.players then Leave(r.game, p) else r.game
        case MsgPlayerAction(p, action) => if r.isPlaying && p in r.players then Act(r.game, p, action) else r.game
        case MsgGameStart(clock) => if r.isPlaying then r.game else Start(r.game, clock)
        case MsgShutdown => Destroy(r.game)
        case _ => r.game
      }
  }

  // How each handler reaches the script: through one call, or not at all once the engine is destroyed.

  lemma JoinPlays(r: Room, p: PlayerId, info: Option<string>)
    ensures HandleJoin(r, p, info).game ==
      if !r.destroyed && !r.isPlaying && |r.players| < r.maxPlayers && p !in r.players && info.Some?
      then Play(r.game, PlayerJoin(p)) else r.game
  {
    hide Play;
  }

  lemma LeavePlays(r: Room, p: PlayerId, heir: PlayerId)
    ensures HandleLeave(r, p, heir).game ==
      if !r.destroyed && p in r.players then Play(r.game, PlayerLeave(p)) else r.game
  {
    hide Play, Heir;
  }

  lemma ReadyPlays(r: Room, p: PlayerId)
    ensures HandleReady(r, p).game == r.game
  {
    hide Everyone;
  }

  lemma ActionPlays(r: Room, p: PlayerId, action: Action)
    ensures HandleAction(r, p, action).game ==
      if !r.destroyed && r.isPlaying && p in r.players then Play(r.game, PlayerAction(p, action)) else r.game
  {
    hide Play;
  }

  lemma StartPlays(r: Room, clock: seq<int>)
    ensures HandleStart(r, clock).game ==
      if !r.destroyed && !r.isPlaying then Play(r.game, GameStart(clock)) else r.game
  {
    hide Play;
  }

  lemma ShutdownPlays(r: Room)
    ensures HandleShutdown(r).game == Destroy(r.game)
  {
    hide Play, Destroy;
  }

  lemma PlayOf(r: Room, step: Step)
    requires Live(r)
    ensures Next(r, step).game == GameAfter(r, step)
  {
    hide Leave, Act, Draw, Join, Start, Destroy;
    hide HandleJoin, HandleLeave, HandleReady, HandleAction, HandleStart, HandleShutdown;
    match step
    case TimerFires =>
    case Deliver(msg) =>
      match msg {
        case MsgPlayerJoin(p, info) => JoinPlays(r, p, info);
        case MsgPlayerLeave(p, heir) => LeavePlays(r, p, heir);
        case MsgPlayerReady(p) => ReadyPlays(r, p);
        case MsgPlayerAction(p, action) => ActionPlays(r, p, action);
        case MsgGameStart(clock) => StartPlays(r, clock);
        case MsgShutdown => ShutdownPlays(r);
        case _ =>
      }
  }

  /** A destroyed or crashed script stays as it is, but for its timers. */
  lemma FrozenGame(r: Room, step: Step)
    requires !Live(r) && RoomOk(r)
    ensures var g := Next(r, step).game; g == r.game || g == Destroy(r.game)
  {
    hide Leave, Act, Draw, Join, Start, Destroy, TableOk;
    hide HandleJoin, HandleLeave, HandleReady, HandleAction, HandleStart, HandleShutdown;
    if step.Deliver? {
      match step.msg
      case MsgPlayerJoin(p, info) => JoinPlays(r, p, info);
      case MsgPlayerLeave(p, heir) => LeavePlays(r, p, heir);
      case MsgPlayerReady(p) => ReadyPlays(r, p);
      case MsgPlayerAction(p, action) => ActionPlays(r, p, action);
      case MsgGameStart(clock) => StartPlays(r, clock);
      case MsgShutdown => ShutdownPlays(r);
      case _ =>
    }
  }

  /** The call a step makes, if it makes one. */
  function MoveOf(r: Room, step: Step): Option<Move> {
    match step
    case TimerFires => if r.game.drawPending then Some(DealerDraw) else None
    case Deliver(msg) =>
      match msg {
        case MsgPlayerJoin(p, info) =>
          if !r.isPlaying && |r.players| < r.maxPlayers && p !in r.players && info.Some?
          then Some(PlayerJoin(p)) else None
        case MsgPlayerLeave(p, _) => if p in r.players then Some(PlayerLeave(p)) else None
        case MsgPlayerAction(p, action) => if r.isPlaying && p in r.players then Some(PlayerAction(p, action)) else None
        case MsgGameStart(clock) => if r.isPlaying then None else Some(GameStart(clock))
        case _ => None
      }
  }

  lemma StepIsMove(r: Room, step: Step)
    requires Live(r) && !(step.Deliver? && step.msg.MsgShutdown?)
    ensures Next(r, step).game == if MoveOf(r, step).Some? then Play(r.game, MoveOf(r, step).value) else r.game
  {
    hide Leave, Act, Draw, Join, Start, Next;
    PlayOf(r, step);
  }

  /** The room lets through only what the table allows. */
  lemma MoveAllowed(r: Room, step: Step)
    requires RoomOk(r) && Live(r) && MoveOf(r, step).Some?
    ensures Allowed(r.game, MoveOf(r, step).value, Capacity(r.maxPlayers))
  {
    hide TableOk;
    assert |r.game.players| == |r.players| by { SameSize(r.game.players, r.players); }
  }

  lemma LeaveKeepsEngine(r: Room, p: PlayerId, heir: PlayerId)
    ensures HandleLeave(r, p, heir).destroyed == r.destroyed
  {
    hide Play, Heir;
  }

  lemma DestroyedStays(r: Room, step: Step)
    requires r.destroyed
    ensures Next(r, step).destroyed
  {
    hide Play, Destroy, HandleLeave;
    if step.Deliver? && step.msg.MsgPlayerLeave? {
      LeaveKeepsEngine(r, step.msg.p, step.msg.heir);
    }
  }

  /** Once destroyed or crashed, always destroyed or crashed. */
  lemma DeadStaysDead(r: Room, step: Step)
    requires RoomOk(r) && !Live(r)
    ensures !Live(Next(r, step))
  {
    hide Next, RoomOk;
    FrozenGame(r, step);
    if r.destroyed {
      DestroyedStays(r, step);
    }
  }

  lemma {:induction false} RunKeepsDone(r: Room, p: PlayerId, steps: seq<Step>)
    requires RoomOk(r) && DoneOrGone(r.game, p)
    ensures DoneOrGone(RunFrom(r, steps).game, p)
    decreases |steps|
  {
    hide RoomOk, DoneOrGone, Next;
    if steps != [] {
      var front := steps[..|steps| - 1];
      RunKeepsDone(r, p, front);
      RunFromOk(r, front);
      StepKeepsDone(RunFrom(r, front), p, steps[|steps| - 1]);
    }
  }

  /**
    A passed player never becomes current again, whatever messages follow: however the turn
    order is spliced by leaves, a later playing state has somebody else at the index.
  */
  lemma NeverCurrentAgain(maxPlayers: int, turnIndex: Option<int>, before: seq<Step>, after: seq<Step>, p: PlayerId)
    requires var r := Run(maxPlayers, turnIndex, before); r.game.phase.Playing? && IsPassed(r.game, p)
    ensures var later := RunFrom(Run(maxPlayers, turnIndex, before), after);
      Live(later) && later.game.phase.Playing? ==> !IsCurrent(later.game, p)
  {
    hide Next, TableOk, RunFrom;
    var r := Run(maxPlayers, turnIndex, before);
    RunOk(maxPlayers, turnIndex, before);
    RunKeepsDone(r, p, after);
    RunFromOk(r, after);
    var later := RunFrom(r, after);
    if Live(later) && later.game.phase.Playing? {
      TableMembers(later.game, Capacity(later.maxPlayers));
      DoneIsNotCurrent(later.game, p);
    }
  }

  lemma DoneIsNotCurrent(g: Game, p: PlayerId)
    requires NoDup(g.turnOrder) && g.phase.Playing? && DoneOrGone(g, p)
    ensures !IsCurrent(g, p)
  {
  }
}
