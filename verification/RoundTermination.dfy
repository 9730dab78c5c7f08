/** How long a round can take: a measure for the players' turns, and one for the dealer's draws. */
module RoundTermination {
  import opened Prelude
  import opened Cards
  import opened Blackjack
  import opened TableInvariants
  import opened TurnLaws
  import opened DealerLaws
  import opened TableLaws
  import opened Room
  import opened RoomLaws
  import opened RoundLaws

  // ----- The players' turns -----

  /** Players not yet passed, and how far the current hand is from 22 with aces as 1. */
  function Rank(g: Game): nat {
    if g.phase.Playing? && g.currentPlayerIndex < |g.turnOrder|
       && g.turnOrder[g.currentPlayerIndex] in g.players
       && Low(g.players[g.turnOrder[g.currentPlayerIndex]].hand) <= 20
    then 20 * (|g.turnOrder| - g.currentPlayerIndex) + 2 - Low(g.players[g.turnOrder[g.currentPlayerIndex]].hand)
    else 0
  }

  /** The calls of the playing phase that the script does not refuse. */
  predicate Accepted(g: Game, move: Move) {
    match move
    case PlayerLeave(p) => p in g.players
    case PlayerAction(p, action) =>
      p in g.players &&
      match action {
        case Hit => IsCurrent(g, p)
        case Stand => IsCurrent(g, p)
        case Double => DoubleTurn(g, p) && |g.players[p].hand| == 2 && g.players[p].chips >= g.players[p].bet
        case _ => false
      }
    case _ => false
  }

  lemma RankOfCurrent(g: Game, cap: nat)
    requires TableOk(g, cap) && g.phase.Playing? && g.turnOrder != []
    ensures g.currentPlayerIndex < |g.turnOrder|
    ensures var p := g.turnOrder[g.currentPlayerIndex];
      Rank(g) == 20 * (|g.turnOrder| - g.currentPlayerIndex) + 2 - Low(g.players[p].hand)
    ensures 20 * (|g.turnOrder| - g.currentPlayerIndex) - 18 <= Rank(g) <= 20 * (|g.turnOrder| - g.currentPlayerIndex)
  {
    hide Weigh, Value;
    var p := g.turnOrder[g.currentPlayerIndex];
    assert SeatOk(Playing, g.players[p]);
    LowBounds(g.players[p].hand);
    LowOfTwo(g.players[p].hand);
  }

  lemma LowOfTwo(hand: seq<Card>)
    requires |hand| >= 2
    ensures Low(hand) >= 2
  {
    LowBounds(hand);
  }

  /** Passing the current player, who had at least `left` turns from here, brings the measure down. */
  lemma RankAfterAdvance(h: Game, cap: nat)
    requires TableOk(AdvanceTurn(h), cap)
    ensures var left := |h.turnOrder| - h.currentPlayerIndex - 1;
      Rank(AdvanceTurn(h)) <= if left > 0 then 20 * left else 0
  {
    hide AdvanceTurn, TableOk;
    AdvanceStops(h);
    var r := AdvanceTurn(h);
    if r.phase.Playing? && r.turnOrder != [] {
      RankOfCurrent(r, cap);
    }
  }

  /** Every accepted hit, stand, double or leave lowers the measure. */
  lemma AcceptedLowersRank(g: Game, move: Move, cap: nat)
    requires TableOk(g, cap) && !g.crashed && g.phase.Playing? && g.turnOrder != []
    requires Allowed(g, move, cap) && Accepted(g, move) && !Play(g, move).crashed
    ensures Rank(Play(g, move)) < Rank(g)
  {
    hide TableOk, AdvanceTurn, Value, Weigh, Rank, HitTable, DoubledTable, SetSeat;
    TableOkKept(g, move, cap);
    RankOfCurrent(g, cap);
    match move
    case PlayerLeave(p) => LeaveLowersRank(g, p, cap);
    case PlayerAction(p, action) =>
      if action.Hit? {
        HitLowersRank(g, p, cap);
      } else if action.Stand? {
        StandLowersRank(g, p, cap);
      } else {
        assert action.Double?;
        DoubleIsOneChange(g, p);
        RankAfterAdvance(DoubledTable(g, p), cap);
        DoubledSame(g, p);
      }
  }

  lemma StandLowersRank(g: Game, p: PlayerId, cap: nat)
    requires TableOk(g, cap) && g.phase.Playing? && p in g.players && IsCurrent(g, p)
    requires TableOk(HandleStand(g, p), cap)
    ensures Rank(HandleStand(g, p)) < Rank(g)
  {
    hide TableOk, AdvanceTurn, Rank, SetSeat;
    RankOfCurrent(g, cap);
    var seat := g.players[p].(stood := true);
    RankAfterAdvance(SetSeat(g, p, seat), cap);
    SetSeatSame(g, p, seat);
  }

  lemma SetSeatSame(g: Game, p: PlayerId, seat: Seat)
    ensures var h := SetSeat(g, p, seat);
      h.turnOrder == g.turnOrder && h.currentPlayerIndex == g.currentPlayerIndex
  {
  }

  lemma DoubledSame(g: Game, p: PlayerId)
    requires p in g.players && g.deck != []
    ensures var h := DoubledTable(g, p);
      h.turnOrder == g.turnOrder && h.currentPlayerIndex == g.currentPlayerIndex
  {
  }

  lemma LeaveLowersRank(g: Game, p: PlayerId, cap: nat)
    requires TableOk(g, cap) && g.phase.Playing? && g.turnOrder != [] && p in g.players
    requires TableOk(Leave(g, p), cap)
    ensures Rank(Leave(g, p)) < Rank(g)
  {
    hide AdvanceTurn, Value, Weigh, Rank, DealerOk, CardsOk, CrowdOk, ChipsOk, SeatsOk;
    RankOfCurrent(g, cap);
    var left := Unseat(g, p);
    if |left.turnOrder| > 0 {
      RankAfterAdvance(left, cap);
    } else {
      RankOfNobody(left);
    }
  }

  lemma RankOfNobody(g: Game)
    requires g.turnOrder == []
    ensures Rank(g) == 0
  {
  }

  lemma HitLowersRank(g: Game, p: PlayerId, cap: nat)
    requires TableOk(g, cap) && g.phase.Playing? && p in g.players && IsCurrent(g, p)
    requires !HandleHit(g, p).crashed && TableOk(HandleHit(g, p), cap) && !g.crashed
    ensures Rank(HandleHit(g, p)) < Rank(g)
  {
    hide TableOk, AdvanceTurn, Value, Weigh, Rank, Aces;
    RankOfCurrent(g, cap);
    HitIsOneChange(g, p);
    var r := HitTable(g, p);
    var c := g.deck[|g.deck| - 1];
    HitSeatHand(g.players[p], c);
    PushFacts(g.players[p].hand, c);
    if Value(r.players[p].hand) >= 21 {
      RankAfterAdvance(r, cap);
    } else {
      RankOfCurrent(r, cap);
    }
  }

  /** A refused call changes nothing but what has been sent. */
  lemma RefusedChangesNothing(g: Game, p: PlayerId, action: Action)
    requires g.phase.Playing? && p in g.players && !Accepted(g, PlayerAction(p, action))
    ensures Act(g, p, action) == g.(outbox := Act(g, p, action).outbox)
    ensures exists code :: Act(g, p, action).outbox == g.outbox + [Refused(p, code)]
  {
    hide AdvanceTurn;
    var code := if action.Bet? then 40003 else if action.Unknown? then 40002
                else if action.Double? && DoubleTurn(g, p) && |g.players[p].hand| != 2 then 40007
                else if action.Double? && DoubleTurn(g, p) then 40005 else 40006;
    assert Act(g, p, action).outbox == g.outbox + [Refused(p, code)];
  }

  /** The message of a step, as a move of the playing phase that is accepted and does not throw. */
  ghost predicate RoundStep(r: Room, step: Step) {
    && Live(r)
    && !Next(r, step).game.crashed
    && r.game.phase.Playing?
    && step.Deliver?
    && match step.msg
       case MsgPlayerLeave(p, _) => p in r.players && Accepted(r.game, PlayerLeave(p))
       case MsgPlayerAction(p, action) => p in r.players && Accepted(r.game, PlayerAction(p, action))
       case _ => false
  }

  lemma SameTurnSameRank(g: Game, h: Game)
    requires h.phase == g.phase && h.currentPlayerIndex == g.currentPlayerIndex && h.turnOrder == g.turnOrder
    requires h.players == g.players
    ensures Rank(h) == Rank(g)
  {
  }

  lemma RankOutsidePlaying(g: Game)
    requires !g.phase.Playing?
    ensures Rank(g) == 0
  {
  }

  /** A throw leaves the turns as they were. */
  lemma ThrowKeepsTurns(g: Game, p: PlayerId, action: Action)
    requires !g.crashed && InPlay(g.phase) && p in g.players && Act(g, p, action).crashed
    ensures Act(g, p, action) == Crash(g)
  {
    hide AdvanceTurn, Value;
    forall h: Game ensures AdvanceTurn(h).crashed == h.crashed {
      AdvanceNeverCrashes(h);
    }
  }

  /** From the deal on, no step raises the measure and every accepted one lowers it. */
  lemma StepRank(r: Room, step: Step)
    requires RoomOk(r) && InPlay(r.game.phase)
    ensures InPlay(Next(r, step).game.phase)
    ensures Rank(Next(r, step).game) + (if RoundStep(r, step) then 1 else 0) <= Rank(r.game)
  {
    hide TableOk, Leave, Act, Draw, Join, Start, Rank, Accepted, Next, Destroy;
    if Live(r) {
      PlayOf(r, step);
      var g, cap := r.game, Capacity(r.maxPlayers);
      TableSeats(g, cap);
      match step
      case TimerFires => if g.drawPending { DrawRank(g); }
      case Deliver(msg) =>
        match msg {
          case MsgPlayerLeave(p, _) => if p in r.players { LeaveAlive(g, p); LeaveRank(g, p, cap); }
          case MsgPlayerAction(p, action) =>
            if p in r.players {
              if Act(g, p, action).crashed { ThrowKeepsTurns(g, p, action); SameTurnSameRank(g, Crash(g)); }
              else { ActRank(g, p, action, cap); }
            }
          case MsgShutdown => DestroyRank(g);
          case _ =>
        }
    } else {
      FrozenGame(r, step);
      DestroyRank(r.game);
    }
  }

  lemma LeaveAlive(g: Game, p: PlayerId)
    requires !g.crashed
    ensures !Leave(g, p).crashed
  {
    hide AdvanceTurn;
    AdvanceNeverCrashes(Unseat(g, p));
  }

  lemma TableSeats(g: Game, cap: nat)
    requires TableOk(g, cap)
    ensures g.players.Keys != {} ==> g.turnOrder != []
    ensures g.drawPending ==> g.phase.Dealer?
  {
    if g.players.Keys != {} {
      var p :| p in g.players;
      assert p in g.turnOrder;
    }
  }

  lemma DestroyRank(g: Game)
    ensures Rank(Destroy(g)) == Rank(g) && Destroy(g).phase == g.phase
  {
  }

  lemma DrawRank(g: Game)
    requires g.phase.Dealer?
    ensures Rank(Draw(g)) == 0 && InPlay(Draw(g).phase)
  {
    hide Value;
  }

  lemma LeaveRank(g: Game, p: PlayerId, cap: nat)
    requires TableOk(g, cap) && !g.crashed && p in g.players && InPlay(g.phase) && !Leave(g, p).crashed
    ensures InPlay(Leave(g, p).phase)
    ensures if g.phase.Playing? then Rank(Leave(g, p)) < Rank(g) else Rank(Leave(g, p)) == 0
  {
    hide TableOk, AdvanceTurn, Rank;
    TableSeats(g, cap);
    AdvanceStops(Unseat(g, p));
    if g.phase.Playing? {
      KeepsLeave(g, p, cap);
      LeaveLowersRank(g, p, cap);
    } else {
      RankOutsidePlaying(Leave(g, p));
    }
  }

  lemma ActRank(g: Game, p: PlayerId, action: Action, cap: nat)
    requires TableOk(g, cap) && !g.crashed && p in g.players && InPlay(g.phase) && !Act(g, p, action).crashed
    ensures InPlay(Act(g, p, action).phase)
    ensures if g.phase.Playing? && Accepted(g, PlayerAction(p, action))
            then Rank(Act(g, p, action)) < Rank(g)
            else Rank(Act(g, p, action)) == Rank(g)
  {
    hide TableOk, AdvanceTurn, Rank, Accepted;
    ActInPlay(g, p, action);
    TableSeats(g, cap);
    if g.phase.Playing? && Accepted(g, PlayerAction(p, action)) {
      AcceptedLowersRank(g, PlayerAction(p, action), cap);
    } else if g.phase.Playing? {
      RefusedChangesNothing(g, p, action);
      SameTurnSameRank(g, Act(g, p, action));
    } else {
      RankOutsidePlaying(g);
      RankOutsidePlaying(Act(g, p, action));
    }
  }

  lemma ActInPlay(g: Game, p: PlayerId, action: Action)
    requires p in g.players && InPlay(g.phase)
    ensures InPlay(Act(g, p, action).phase)
    ensures !g.phase.Playing? ==> Act(g, p, action).phase == g.phase
  {
    hide AdvanceTurn, Value;
    match action
    case Bet(_) =>
    case Unknown =>
    case Hit =>
      if g.phase.Playing? && IsCurrent(g, p) && g.deck != [] {
        HitIsOneChange(g, p);
        AdvanceStops(HitTable(g, p));
      }
    case Stand => AdvanceStops(SetSeat(g, p, g.players[p].(stood := true)));
    case Double =>
      if g.phase.Playing? && DoubleTurn(g, p) && |g.players[p].hand| == 2 && g.deck != []
         && g.players[p].chips >= g.players[p].bet {
        DoubleIsOneChange(g, p);
        AdvanceStops(DoubledTable(g, p));
      }
  }

  /** How many steps of a run are accepted moves of the playing phase. */
  ghost function AcceptedSteps(r: Room, steps: seq<Step>): nat
    decreases |steps|
  {
    if steps == [] then 0
    else
      var front, last := steps[..|steps| - 1], steps[|steps| - 1];
      AcceptedSteps(r, front) + (if RoundStep(RunFrom(r, front), last) then 1 else 0)
  }

  lemma {:induction false} AcceptedStepsBounded(r: Room, steps: seq<Step>)
    requires RoomOk(r) && InPlay(r.game.phase)
    ensures AcceptedSteps(r, steps) + Rank(RunFrom(r, steps).game) <= Rank(r.game)
    ensures InPlay(RunFrom(r, steps).game.phase)
    decreases |steps|
  {
    hide RoomOk, Next, Rank, RoundStep;
    if steps != [] {
      var front, last := steps[..|steps| - 1], steps[|steps| - 1];
      AcceptedStepsBounded(r, front);
      RunFromOk(r, front);
      StepRank(RunFrom(r, front), last);
    }
  }

  lemma RankAtMost(g: Game, cap: nat)
    requires TableOk(g, cap)
    ensures Rank(g) <= 20 * |g.turnOrder|
  {
    hide TableOk, Rank;
    if g.phase.Playing? && g.turnOrder != [] {
      RankOfCurrent(g, cap);
    } else if g.turnOrder == [] {
      RankOfNobody(g);
    } else {
      RankOutsidePlaying(g);
    }
  }

  /**
    The playing phase is bounded in moves: after any run and however long the continuation, at
    most 20 hits, stands, doubles and leaves per seated player are accepted, and each one uses up
    part of the measure that is 0 only once the phase is over or nobody is seated.
  */
  lemma AcceptedMovesBounded(maxPlayers: int, turnIndex: Option<int>, before: seq<Step>, after: seq<Step>)
    requires var r := Run(maxPlayers, turnIndex, before); Live(r) && r.game.phase.Playing?
    ensures var r := Run(maxPlayers, turnIndex, before);
      AcceptedSteps(r, after) + Rank(RunFrom(r, after).game) <= 20 * |r.game.turnOrder|
  {
    hide Next, RunFrom, Rank, TableOk, AcceptedSteps;
    var r := Run(maxPlayers, turnIndex, before);
    RunOk(maxPlayers, turnIndex, before);
    AcceptedStepsBounded(r, after);
    RankAtMost(r.game, Capacity(r.maxPlayers));
  }

  // ----- The dealer -----

  /** An upper bound on the timer firings still needed. */
  function DrawsLeft(g: Game): nat {
    if g.phase.Dealer? && |g.dealerHand| <= 12 then 13 - |g.dealerHand| else 0
  }

  lemma DealerHandSize(g: Game)
    requires DealerOk(g) && (g.phase.Dealer? || g.phase.Ended?)
    ensures 2 <= |g.dealerHand| <= 12
    ensures |g.timers.live| <= 11
  {
    hide Weigh, Aces;
  }

  lemma TableDealer(g: Game, cap: nat)
    requires TableOk(g, cap)
    ensures DealerOk(g)
  {
  }

  /** While the dealer plays a draw is always scheduled, and each firing brings the end closer. */
  lemma FiringLowers(r: Room)
    requires RoomOk(r) && Live(r) && r.game.phase.Dealer? && !Next(r, TimerFires).game.crashed
    ensures r.game.drawPending
    ensures var g := Next(r, TimerFires).game;
      (g.phase.Dealer? || g.phase.Ended?) && DrawsLeft(g) < DrawsLeft(r.game)
  {
    hide TableOk, Weigh, Value, Next, Act, Leave, Join, Start;
    PlayOf(r, TimerFires);
    DrawOk(r);
    TableDealer(r.game, Capacity(r.maxPlayers));
    DealerHandSize(r.game);
    LiveAfterFiring(r);
  }

  lemma LiveAfterFiring(r: Room)
    ensures Next(r, TimerFires).destroyed == r.destroyed
    ensures Next(r, TimerFires).maxPlayers == r.maxPlayers
    ensures r.game.crashed ==> Next(r, TimerFires).game.crashed
  {
    hide Draw;
  }

  /** `n` firings in a row. */
  function Firings(n: nat): seq<Step> { seq(n, _ => TimerFires) }

  lemma {:induction false} DrawsCountDown(r: Room, n: nat)
    requires RoomOk(r) && Live(r) && r.game.phase.Dealer?
    ensures var late := RunFrom(r, Firings(n));
      && !late.destroyed && late.maxPlayers == r.maxPlayers
      && (|| late.game.crashed || late.game.phase.Ended?
          || (late.game.phase.Dealer? && DrawsLeft(late.game) + n <= DrawsLeft(r.game)))
    decreases n
  {
    hide RoomOk, Next, DrawsLeft;
    if n > 0 {
      assert Firings(n)[..n - 1] == Firings(n - 1);
      DrawsCountDown(r, n - 1);
      var late := RunFrom(r, Firings(n - 1));
      RunFromOk(r, Firings(n - 1));
      LiveAfterFiring(late);
      if !late.game.crashed && !Next(late, TimerFires).game.crashed {
        if late.game.phase.Dealer? {
          FiringLowers(late);
        } else {
          FiringAfterEnd(late);
        }
      }
    }
  }

  lemma {:induction false} FiringsNeverThrow(r: Room, n: nat)
    requires RoomOk(r) && !r.game.crashed && r.maxPlayers <= SAFE_SEATS
    ensures !RunFrom(r, Firings(n)).game.crashed
    decreases n
  {
    hide RoomOk, Next;
    if n > 0 {
      assert Firings(n)[..n - 1] == Firings(n - 1);
      FiringsNeverThrow(r, n - 1);
      var late := RunFrom(r, Firings(n - 1));
      MaxPlayersFixed(r, Firings(n - 1));
      RunFromOk(r, Firings(n - 1));
      StepNeverCrashes(late, TimerFires);
    }
  }

  lemma FiringAfterEnd(r: Room)
    requires RoomOk(r) && Live(r) && r.game.phase.Ended?
    ensures Next(r, TimerFires) == r
  {
    hide Play, Weigh, Value;
  }

  lemma DealerEndValue(g: Game)
    requires DealerOk(g) && g.phase.Ended?
    ensures 17 <= Value(g.dealerHand) <= 26
  {
    hide Weigh, Aces;
  }

  /**
    The dealer loop ends: once the dealer plays, at most eleven firings resolve the round, with
    the dealer's value from 17 to 26, at most twelve cards and at most eleven timer slots taken,
    unless the deck runs out, which it cannot with at most 67 seats.
  */
  lemma DealerFinishes(maxPlayers: int, turnIndex: Option<int>, steps: seq<Step>)
    requires var r := Run(maxPlayers, turnIndex, steps); Live(r) && r.game.phase.Dealer?
    ensures var g := RunFrom(Run(maxPlayers, turnIndex, steps), Firings(11)).game;
      && (maxPlayers <= SAFE_SEATS ==> !g.crashed)
      && (!g.crashed ==>
            && g.phase.Ended?
            && 17 <= Value(g.dealerHand) <= 26
            && |g.dealerHand| <= 12
            && |g.timers.live| <= 11)
  {
    hide Next, RunFrom, TableOk, DealerOk, Value;
    var r := Run(maxPlayers, turnIndex, steps);
    RunOk(maxPlayers, turnIndex, steps);
    TableDealer(r.game, Capacity(r.maxPlayers));
    DealerHandSize(r.game);
    DrawsCountDown(r, 11);
    RunFromOk(r, Firings(11));
    var late := RunFrom(r, Firings(11));
    if maxPlayers <= SAFE_SEATS {
      FiringsNeverThrow(r, 11);
    }
    if !late.game.crashed {
      TableDealer(late.game, Capacity(late.maxPlayers));
      DealerHandSize(late.game);
      DealerEndValue(late.game);
    }
  }

  /** The engine refuses to schedule a draw exactly when fifty timers are live. */
  lemma DrawRefusedExactly(g: Game)
    ensures !ScheduleDraw(g).drawPending <==> |g.timers.live| >= 50
  {
  }

  /** The dealer's timers never come near the engine's limit, and dealerPlay is entered at most once. */
  lemma TimersAndEntries(maxPlayers: int, turnIndex: Option<int>, steps: seq<Step>)
    ensures var r := Run(maxPlayers, turnIndex, steps); Live(r) ==>
      && |r.game.timers.live| <= 11
      && r.game.hist.dealerEntries <= 1
      && (r.game.phase.Dealer? ==> r.game.drawPending)
  {
    hide Next, RunFrom, TableOk, Value;
    var r := Run(maxPlayers, turnIndex, steps);
    RunOk(maxPlayers, turnIndex, steps);
    if Live(r) {
      TableDealer(r.game, Capacity(r.maxPlayers));
      if r.game.phase.Dealer? || r.game.phase.Ended? {
        DealerHandSize(r.game);
      }
    }
  }
}
