/** Whose turn it is, in every run of a room: the turn machine, and doubling as the script is written. */
module TurnTheorems {
  import opened Prelude
  import opened Cards
  import opened Engine
  import opened Blackjack
  import opened Tally
  import opened TableInvariants
  import opened TurnLaws
  import opened CardLaws
  import opened TableLaws
  import opened Room
  import opened RoomLaws
  import opened RoundLaws
  import opened RoundTermination

  // ----- Turns -----

  /**
    The turn machine, in every run: while playing with somebody seated the index is in range, the
    current player can act, and everybody ahead holds two untouched cards, except a player with
    an empty id who doubled out of turn, which takes a `turnIndex` that is absent or above 1.
  */
  lemma TurnMachine(maxPlayers: int, turnIndex: Option<int>, steps: seq<Step>)
    ensures var r := Run(maxPlayers, turnIndex, steps); var g := r.game;
      Live(r) && g.phase.Playing? && g.turnOrder != [] ==>
        && g.currentPlayerIndex < |g.turnOrder|
        && g.turnOrder[g.currentPlayerIndex] in g.players
        && Active(g.players[g.turnOrder[g.currentPlayerIndex]])
        && (forall j :: g.currentPlayerIndex < j < |g.turnOrder| ==>
              && g.turnOrder[j] in g.players
              && (Untouched(g.players[g.turnOrder[j]])
                  || (g.turnOrder[j] == EMPTY_ID && !(turnIndex.Some? && turnIndex.value <= 1))))
  {
    hide Next, RunFrom, TableOk;
    var r := Run(maxPlayers, turnIndex, steps);
    RunOk(maxPlayers, turnIndex, steps);
    TurnIndexInRuns(maxPlayers, turnIndex, steps);
    if Live(r) {
      TableTurn(r.game, Capacity(r.maxPlayers));
    }
  }

  lemma TableTurn(g: Game, cap: nat)
    requires TableOk(g, cap)
    ensures TurnOk(g)
  {
  }

  /** Nothing in the script assigns `turnIndex`. */
  lemma PlayKeepsTurnIndex(g: Game, move: Move)
    ensures Play(g, move).turnIndex == g.turnIndex
  {
    hide AdvanceTurn, Value, Shuffled, DealHands, SettleAll;
    forall h: Game ensures AdvanceTurn(h).turnIndex == h.turnIndex {
      AdvanceStops(h);
    }
  }

  lemma StepKeepsTurnIndex(r: Room, step: Step)
    ensures Next(r, step).game.turnIndex == r.game.turnIndex
  {
    hide Play, HandleJoin, HandleLeave, HandleReady, HandleAction, HandleStart, HandleShutdown;
    forall move: Move ensures Play(r.game, move).turnIndex == r.game.turnIndex {
      PlayKeepsTurnIndex(r.game, move);
    }
    if step.Deliver? {
      match step.msg
      case MsgPlayerJoin(p, info) => JoinPlays(r, p, info);
      case MsgPlayerLeave(p, heir) => LeavePlays(r, p, heir);
      case MsgPlayerReady(p) => ReadyPlays(r, p);
      case MsgPlayerAction(p, action) => ActionPlays(r, p, action);
      case MsgGameStart(clock) => StartPlays(r, clock);
      case MsgShutdown => ShutdownPlays(r);
      case _ =>
    }
  }

  lemma {:induction false} TurnIndexInRuns(maxPlayers: int, turnIndex: Option<int>, steps: seq<Step>)
    ensures Run(maxPlayers, turnIndex, steps).game.turnIndex == turnIndex
    decreases |steps|
  {
    hide Next;
    if steps != [] {
      var front := steps[..|steps| - 1];
      TurnIndexInRuns(maxPlayers, turnIndex, front);
      RunStep(maxPlayers, turnIndex, steps);
      StepKeepsTurnIndex(Run(maxPlayers, turnIndex, front), steps[|steps| - 1]);
    }
  }

  // ----- Doubling as the script is written -----

  /**
    With `turnIndex` absent a double has an effect exactly for the player whose id is the empty
    string: everybody else, the current player included, is told that it is not their turn.
  */
  lemma DoubleAsWritten(g: Game, p: PlayerId)
    requires g.phase.Playing? && g.turnIndex.None? && p in g.players
    ensures HandleDouble(g, p) == Refuse(g, p, 40006) <==> p != EMPTY_ID
  {
    hide AdvanceTurn, Value;
    if p == EMPTY_ID && |g.players[p].hand| == 2 && g.players[p].chips >= g.players[p].bet && g.deck != [] {
      DoubleIsOneChange(g, p);
      AdvanceStops(DoubledTable(g, p));
      assert HandleDouble(g, p).deck != g.deck by { assert |HandleDouble(g, p).deck| == |g.deck| - 1; }
    } else {
      assert Refuse(g, p, 40006).outbox[|g.outbox|] == Refused(p, 40006);
    }
  }

  /**
    With a `turnIndex` below the number of seats doubling is what it is meant to be: refused with
    40006 exactly for whoever is not current, and taken exactly by a current player with two cards
    and the chips, who stakes the bet again, gets one card, has stood and is passed.
  */
  lemma DoubleAsIntended(g: Game, p: PlayerId)
    requires g.phase.Playing? && g.turnIndex.Some? && g.turnIndex.value < |g.turnOrder|
    requires p in g.players && g.deck != []
    ensures HandleDouble(g, p) == Refuse(g, p, 40006) <==> !IsCurrent(g, p)
    ensures var h, seat := HandleDouble(g, p), g.players[p];
      var taken := IsCurrent(g, p) && |seat.hand| == 2 && seat.chips >= seat.bet;
      && (h.outbox == g.outbox <==> taken)
      && (taken ==>
            && p in h.players && h.players[p].stood && |h.players[p].hand| == 3
            && h.players[p].bet == 2 * seat.bet && h.players[p].chips == seat.chips - seat.bet
            && h.pot == g.pot + seat.bet
            && g.deck == h.deck + [h.players[p].hand[2]]
            && h.turnOrder == g.turnOrder && IsPassed(h, p))
  {
    hide AdvanceTurn, Value;
    var seat := g.players[p];
    if IsCurrent(g, p) && |seat.hand| == 2 && seat.chips >= seat.bet {
      DoubleIsOneChange(g, p);
      AdvanceStops(DoubledTable(g, p));
      assert |HandleDouble(g, p).deck| == |g.deck| - 1;
    } else {
      assert Refuse(g, p, 40006).outbox[|g.outbox|] == Refused(p, 40006);
    }
  }

  /**
    An action of somebody who is not the current player is accepted exactly if it is the double
    of a seated player with the empty id, two cards and the chips, while `turnIndex` is absent or
    not below the number of seats.
  */
  lemma StrayActionExactly(g: Game)
    ensures (exists p, action :: p in g.players && !IsCurrent(g, p) && Accepted(g, PlayerAction(p, action)))
      <==> && EMPTY_ID in g.players && !IsCurrent(g, EMPTY_ID)
           && |g.players[EMPTY_ID].hand| == 2 && g.players[EMPTY_ID].chips >= g.players[EMPTY_ID].bet
           && !(g.turnIndex.Some? && g.turnIndex.value < |g.turnOrder|)
  {
    if EMPTY_ID in g.players && !IsCurrent(g, EMPTY_ID) && Accepted(g, PlayerAction(EMPTY_ID, Double)) {
      assert exists p, action :: p in g.players && !IsCurrent(g, p) && Accepted(g, PlayerAction(p, action));
    }
  }

  /**
    What such a double does, wherever the doubler sits, passed or not: the doubler gets a third
    card, and the current player loses the turn without having acted.
  */
  lemma StrayDoubleRobs(g: Game, p: PlayerId, cap: nat)
    requires TableOk(g, cap) && !g.crashed && g.phase.Playing? && g.deck != []
    requires p in g.players && !IsCurrent(g, p) && Accepted(g, PlayerAction(p, Double))
    ensures g.currentPlayerIndex < |g.turnOrder|
    ensures var r := HandleDouble(g, p);
      var cur := g.turnOrder[g.currentPlayerIndex];
      && !r.crashed
      && p in r.players && |r.players[p].hand| == 3
      && cur in g.players && cur in r.players && r.players[cur] == g.players[cur] && Active(r.players[cur])
      && r.turnOrder == g.turnOrder && r.currentPlayerIndex > g.currentPlayerIndex
  {
    hide AdvanceTurn, Value, Weigh, Sum, CardsOk, ChipsOk, CrowdOk, DealerOk;
    assert g.turnOrder != [] by { assert p in g.turnOrder; }
    DoubleIsOneChange(g, p);
    AdvanceStops(DoubledTable(g, p));
  }

  // ----- One position at a time -----

  /** Whether a call of the playing phase advances the turn. */
  predicate Advances(g: Game, move: Move) {
    g.phase.Playing? &&
    match move
    case PlayerLeave(p) => |g.turnOrder| > 1
    case PlayerAction(p, Hit) =>
      IsCurrent(g, p) && p in g.players && g.deck != [] && Value(g.players[p].hand + [g.deck[|g.deck| - 1]]) >= 21
    case PlayerAction(p, Stand) => IsCurrent(g, p)
    case PlayerAction(p, Double) => Accepted(g, move) && g.deck != []
    case _ => false
  }

  /** Nobody seated can double out of turn. */
  ghost predicate NoStrays(g: Game) {
    |g.turnOrder| <= 1 || forall p :: p in g.players ==> !DoubleOutOfTurn(g, p)
  }

  lemma AdvanceIsOneStep(h: Game)
    requires AheadOk(h, h.currentPlayerIndex + 1) && NoStrays(h)
    ensures AdvanceTurn(h).currentPlayerIndex == h.currentPlayerIndex + 1
  {
    hide Value, Weigh, DealerPlay;
    if h.currentPlayerIndex + 1 < |h.turnOrder| {
      SkipUnreachable(h);
    } else {
      DealerKeepsIndex(h.(currentPlayerIndex := h.currentPlayerIndex + 1));
    }
  }

  lemma DealerKeepsIndex(g: Game)
    ensures DealerPlay(g).currentPlayerIndex == g.currentPlayerIndex
  {
  }

  lemma LeaveIsOneStep(g: Game, p: PlayerId, cap: nat)
    requires TableOk(g, cap) && g.phase.Playing? && NoStrays(g) && p in g.players
    ensures Leave(g, p).currentPlayerIndex == g.currentPlayerIndex + if |g.turnOrder| > 1 then 1 else 0
  {
    hide AdvanceTurn, Value, Weigh, Sum, DealerOk, CardsOk, CrowdOk, ChipsOk, SeatsOk;
    UnseatKeepsMembers(g, p);
    UnseatKeepsAhead(g, p);
    if |g.turnOrder| > 1 {
      AdvanceIsOneStep(Unseat(g, p));
    }
  }

  lemma HitIsOneStep(g: Game, p: PlayerId, cap: nat)
    requires TableOk(g, cap) && !g.crashed && g.phase.Playing? && NoStrays(g) && p in g.players
    ensures HandleHit(g, p).currentPlayerIndex
         == g.currentPlayerIndex + if Advances(g, PlayerAction(p, Hit)) then 1 else 0
  {
    hide AdvanceTurn, Value, Weigh, Sum, DealerOk, CardsOk, CrowdOk, ChipsOk, SeatsOk, HitSeat;
    if IsCurrent(g, p) && g.deck != [] {
      var h := HitTable(g, p);
      HitIsOneChange(g, p);
      HitSeatHand(g.players[p], g.deck[|g.deck| - 1]);
      SeatChangeKeepsAhead(g, p, h.players[p], h);
      if Value(h.players[p].hand) >= 21 {
        AdvanceIsOneStep(h);
      }
    }
  }

  lemma StandIsOneStep(g: Game, p: PlayerId, cap: nat)
    requires TableOk(g, cap) && g.phase.Playing? && NoStrays(g) && p in g.players
    ensures HandleStand(g, p).currentPlayerIndex == g.currentPlayerIndex + if IsCurrent(g, p) then 1 else 0
  {
    hide AdvanceTurn, Value, Weigh, Sum, DealerOk, CardsOk, CrowdOk, ChipsOk, SeatsOk;
    if IsCurrent(g, p) {
      var h := SetSeat(g, p, g.players[p].(stood := true));
      SeatChangeKeepsAhead(g, p, h.players[p], h);
      AdvanceIsOneStep(h);
    }
  }

  /** Who can double: the current player, or somebody who can do so out of turn. */
  lemma DoublerIsCurrentOrStray(g: Game, p: PlayerId)
    requires Members(g) && TurnOk(g) && g.phase.Playing? && p in g.players && DoubleTurn(g, p)
    ensures IsCurrent(g, p) || DoubleOutOfTurn(g, p)
  {
    assert p in g.turnOrder;
  }

  lemma DoubleIsOneStep(g: Game, p: PlayerId, cap: nat)
    requires TableOk(g, cap) && !g.crashed && g.phase.Playing? && NoStrays(g) && p in g.players
    ensures HandleDouble(g, p).currentPlayerIndex
         == g.currentPlayerIndex + if Advances(g, PlayerAction(p, Double)) then 1 else 0
  {
    hide AdvanceTurn, Value, Weigh, Sum, DealerOk, CardsOk, CrowdOk, ChipsOk, SeatsOk, DoubledSeat;
    if Accepted(g, PlayerAction(p, Double)) && g.deck != [] {
      var h := DoubledTable(g, p);
      DoubleIsOneChange(g, p);
      DoublerIsCurrentOrStray(g, p);
      SeatChangeKeepsAhead(g, p, h.players[p], h);
      AdvanceIsOneStep(h);
    }
  }

  /**
    While nobody seated can double out of turn, every call of the playing phase moves the index
    by exactly one if it advances the turn, and not at all otherwise: no skip branch is taken.
  */
  lemma TurnMovesByOne(g: Game, move: Move, cap: nat)
    requires TableOk(g, cap) && !g.crashed && g.phase.Playing? && NoStrays(g)
    requires Allowed(g, move, cap)
    ensures Play(g, move).currentPlayerIndex == g.currentPlayerIndex + if Advances(g, move) then 1 else 0
  {
    hide TableOk, Leave, HandleHit, HandleStand, HandleDouble, AdvanceTurn, Value, Weigh, NoStrays;
    match move
    case PlayerLeave(p) => LeaveIsOneStep(g, p, cap);
    case PlayerAction(p, action) =>
      match action {
        case Hit => HitIsOneStep(g, p, cap);
        case Stand => StandIsOneStep(g, p, cap);
        case Double => DoubleIsOneStep(g, p, cap);
        case _ =>
      }
    case PlayerJoin(_) =>
    case GameStart(_) =>
    case DealerDraw => NoDrawWhilePlaying(g, cap);
  }

  lemma NoDrawWhilePlaying(g: Game, cap: nat)
    requires TableOk(g, cap) && g.phase.Playing?
    ensures !g.drawPending
  {
  }

  /** The same for a step of a room. */
  predicate StepAdvances(r: Room, step: Step) {
    Live(r) && step.Deliver? &&
    match step.msg
    case MsgPlayerLeave(p, _) => p in r.players && Advances(r.game, PlayerLeave(p))
    case MsgPlayerAction(p, action) => p in r.players && Advances(r.game, PlayerAction(p, action))
    case _ => false
  }

  /** Before the deal the index is 0. */
  ghost predicate IndexWaits(g: Game) { !InPlay(g.phase) ==> g.currentPlayerIndex == 0 }

  lemma BetKeepsIndex(g: Game, p: PlayerId, amount: int)
    requires IndexWaits(g)
    ensures IndexWaits(HandleBet(g, p, amount))
    ensures HandleBet(g, p, amount).currentPlayerIndex == g.currentPlayerIndex
  {
    hide DealHands, AllBet;
  }

  lemma QuietIndex(g: Game, move: Move)
    requires IndexWaits(g) && !g.phase.Playing? && (move.GameStart? ==> g.phase.Waiting?)
    ensures IndexWaits(Play(g, move)) && Play(g, move).currentPlayerIndex == g.currentPlayerIndex
  {
    hide AdvanceTurn, Value, DealHands, SettleAll, Shuffled, HandleBet;
    if move.PlayerAction? && move.action.Bet? {
      BetKeepsIndex(g, move.p, move.action.amount);
    }
  }

  /** Nothing that reaches the script between the deal and the end takes it back before the deal. */
  lemma PlayingStaysInPlay(g: Game, move: Move)
    requires g.phase.Playing? && !move.GameStart? && (move.PlayerAction? ==> move.p in g.players)
    ensures InPlay(Play(g, move).phase)
  {
    hide AdvanceTurn, Value, SettleAll, Act;
    match move
    case PlayerLeave(p) => AdvanceStops(Unseat(g, p));
    case PlayerAction(p, action) => ActInPlay(g, p, action);
    case _ =>
  }

  lemma StepMovesByOne(r: Room, step: Step)
    requires RoomOk(r) && IndexWaits(r.game)
    requires Live(r) && r.game.phase.Playing? ==> NoStrays(r.game)
    ensures IndexWaits(Next(r, step).game)
    ensures Next(r, step).game.currentPlayerIndex == r.game.currentPlayerIndex + if StepAdvances(r, step) then 1 else 0
  {
    hide TableOk, Next, Play, Value, NoStrays, Destroy;
    if !Live(r) {
      FrozenGame(r, step);
      DestroyedIndex(r.game);
    } else if step.Deliver? && step.msg.MsgShutdown? {
      PlayOf(r, step);
      DestroyedIndex(r.game);
    } else {
      StepIsMove(r, step);
      var move := MoveOf(r, step);
      if move.Some? {
        MoveAllowed(r, step);
        MoveIndex(r.game, move.value, Capacity(r.maxPlayers));
      } else {
        NoMoveNoAdvance(r, step);
      }
    }
  }

  lemma NoMoveNoAdvance(r: Room, step: Step)
    requires RoomOk(r) && Live(r) && MoveOf(r, step).None?
    ensures !StepAdvances(r, step)
  {
    hide TableOk, Value;
  }

  lemma DestroyedIndex(g: Game)
    ensures Destroy(g).currentPlayerIndex == g.currentPlayerIndex && Destroy(g).phase == g.phase
  {
  }

  lemma MoveIndex(g: Game, move: Move, cap: nat)
    requires TableOk(g, cap) && !g.crashed && IndexWaits(g) && Allowed(g, move, cap)
    requires g.phase.Playing? ==> NoStrays(g)
    ensures IndexWaits(Play(g, move))
    ensures Play(g, move).currentPlayerIndex == g.currentPlayerIndex + if Advances(g, move) then 1 else 0
  {
    hide TableOk, Play, NoStrays, Value;
    if g.phase.Playing? {
      TurnMovesByOne(g, move, cap);
      PlayingStaysInPlay(g, move);
    } else {
      QuietIndex(g, move);
    }
  }

  // ----- Over runs: when the index follows -----

  /** Whoever asks to join in these steps is one of `ids`. */
  predicate JoinersFrom(steps: seq<Step>, ids: set<PlayerId>) {
    forall i :: 0 <= i < |steps| && steps[i].Deliver? && steps[i].msg.MsgPlayerJoin? ==> steps[i].msg.p in ids
  }

  /** Two can sit, one of them with the empty id, and `turnIndex` is absent or not below two seats. */
  predicate StraysPossible(maxPlayers: int, turnIndex: Option<int>, ids: set<PlayerId>) {
    maxPlayers >= 2 && EMPTY_ID in ids && ids != {EMPTY_ID} && !(turnIndex.Some? && turnIndex.value <= 1)
  }

  lemma JoinMembers(r: Room, p: PlayerId, info: Option<string>)
    ensures HandleJoin(r, p, info).players.Keys <= r.players.Keys + {p}
  {
    hide Play;
  }

  lemma LeaveMembers(r: Room, p: PlayerId, heir: PlayerId)
    ensures HandleLeave(r, p, heir).players.Keys <= r.players.Keys
  {
    hide Play, Heir;
  }

  lemma ReadyMembers(r: Room, p: PlayerId)
    ensures HandleReady(r, p).players.Keys <= r.players.Keys
  {
  }

  /** Only a join adds a member. */
  lemma StepMembers(r: Room, step: Step, ids: set<PlayerId>)
    requires r.players.Keys <= ids && JoinersFrom([step], ids)
    ensures Next(r, step).players.Keys <= ids
  {
    hide Play, Destroy, HandleJoin, HandleLeave, HandleReady;
    assert [step][0] == step;
    if step.Deliver? {
      match step.msg
      case MsgPlayerJoin(p, info) => JoinMembers(r, p, info);
      case MsgPlayerLeave(p, heir) => LeaveMembers(r, p, heir);
      case MsgPlayerReady(p) => ReadyMembers(r, p);
      case _ =>
    }
  }

  lemma {:induction false} MembersFrom(maxPlayers: int, turnIndex: Option<int>, steps: seq<Step>, ids: set<PlayerId>)
    requires JoinersFrom(steps, ids)
    ensures Run(maxPlayers, turnIndex, steps).players.Keys <= ids
    decreases |steps|
  {
    hide Next;
    if steps != [] {
      var front, last := steps[..|steps| - 1], steps[|steps| - 1];
      MembersFrom(maxPlayers, turnIndex, front, ids);
      StepMembers(Run(maxPlayers, turnIndex, front), last, ids);
      RunStep(maxPlayers, turnIndex, steps);
    }
  }

  lemma TableNoStrays(g: Game, cap: nat, ids: set<PlayerId>)
    requires TableOk(g, cap) && |g.players| <= cap && g.players.Keys <= ids
    requires cap < 2 || EMPTY_ID !in ids || ids == {EMPTY_ID} || (g.turnIndex.Some? && g.turnIndex.value <= 1)
    ensures NoStrays(g)
  {
    hide CardsOk, ChipsOk, CrowdOk, DealerOk, SeatsOk, TurnOk;
    NoDupLength(g.turnOrder, g.players.Keys);
    assert |g.players.Keys| == |g.players|;
    if ids == {EMPTY_ID} {
      SubsetSize(g.players.Keys, ids);
    }
  }

  lemma RunNoStrays(maxPlayers: int, turnIndex: Option<int>, steps: seq<Step>, ids: set<PlayerId>)
    requires JoinersFrom(steps, ids) && !StraysPossible(maxPlayers, turnIndex, ids)
    ensures Live(Run(maxPlayers, turnIndex, steps)) ==> NoStrays(Run(maxPlayers, turnIndex, steps).game)
  {
    hide Next, RunFrom, TableOk, NoStrays;
    var r := Run(maxPlayers, turnIndex, steps);
    RunOk(maxPlayers, turnIndex, steps);
    MembersFrom(maxPlayers, turnIndex, steps, ids);
    TurnIndexInRuns(maxPlayers, turnIndex, steps);
    if Live(r) {
      SameSize(r.game.players, r.players);
      TableNoStrays(r.game, Capacity(maxPlayers), ids);
    }
  }

  /** An accepted hit, stand or double by somebody who is not the current player. */
  predicate StrayStep(r: Room, step: Step) {
    Live(r) && r.game.phase.Playing? && step.Deliver? && step.msg.MsgPlayerAction? && step.msg.p in r.game.players &&
    !IsCurrent(r.game, step.msg.p) && Accepted(r.game, PlayerAction(step.msg.p, step.msg.action))
  }

  lemma NoStrayStep(g: Game, p: PlayerId, action: Action, cap: nat)
    requires TableOk(g, cap) && g.phase.Playing? && NoStrays(g) && p in g.players
    requires Accepted(g, PlayerAction(p, action))
    ensures IsCurrent(g, p)
  {
    hide CardsOk, ChipsOk, CrowdOk, DealerOk, SeatsOk, Value, Weigh;
    assert p in g.turnOrder;
    if action.Double? {
      DoublerIsCurrentOrStray(g, p);
    }
  }

  /** The index follows the turn: one position on if the step advances it, else none. */
  predicate IndexFollows(r: Room, after: Room, step: Step) {
    after.game.currentPlayerIndex == r.game.currentPlayerIndex + if StepAdvances(r, step) then 1 else 0
  }

  lemma {:induction false} IndexWaitsInRuns(maxPlayers: int, turnIndex: Option<int>, steps: seq<Step>,
                                            ids: set<PlayerId>)
    requires JoinersFrom(steps, ids) && !StraysPossible(maxPlayers, turnIndex, ids)
    ensures IndexWaits(Run(maxPlayers, turnIndex, steps).game)
    decreases |steps|
  {
    hide Next, RoomOk, NoStrays, StraysPossible;
    if steps != [] {
      var front, last := steps[..|steps| - 1], steps[|steps| - 1];
      IndexWaitsInRuns(maxPlayers, turnIndex, front, ids);
      RunNoStrays(maxPlayers, turnIndex, front, ids);
      RunOk(maxPlayers, turnIndex, front);
      StepMovesByOne(Run(maxPlayers, turnIndex, front), last);
      RunStep(maxPlayers, turnIndex, steps);
    }
  }

  /**
    Runs in which nobody can stray: with joiners from `ids` each step moves the index by one
    position or none, and every accepted hit, stand and double is the current player's.
  */
  lemma IndexFollowsInRuns(maxPlayers: int, turnIndex: Option<int>, ids: set<PlayerId>, steps: seq<Step>, step: Step)
    requires JoinersFrom(steps, ids) && !StraysPossible(maxPlayers, turnIndex, ids)
    ensures var r := Run(maxPlayers, turnIndex, steps); IndexFollows(r, Next(r, step), step) && !StrayStep(r, step)
  {
    hide Next, Run, TableOk, NoStrays, StraysPossible, StepAdvances, Accepted;
    var r := Run(maxPlayers, turnIndex, steps);
    RunNoStrays(maxPlayers, turnIndex, steps, ids);
    RunOk(maxPlayers, turnIndex, steps);
    IndexWaitsInRuns(maxPlayers, turnIndex, steps, ids);
    StepMovesByOne(r, step);
    if StrayStep(r, step) {
      NoStrayStep(r.game, step.msg.p, step.msg.action, Capacity(r.maxPlayers));
    }
  }

  // ----- Over runs: when it does not -----

  /** The table while players gather and bet. */
  ghost predicate Gathered(g: Game, order: seq<PlayerId>, bettors: set<PlayerId>, turnIndex: Option<int>) {
    && !g.crashed && g.turnOrder == order && g.turnIndex == turnIndex
    && (forall p :: p in order <==> p in g.players)
    && forall p :: p in g.players ==>
         var stake := if p in bettors then 10 else 0;
         g.players[p] == Seat(1000 - stake, [], stake, false, false, Undecided)
  }

  lemma GatherDeal(g: Game, p: PlayerId, q: PlayerId, turnIndex: Option<int>)
    requires Gathered(g, [p, q], {p}, turnIndex) && g.phase.Betting? && p != q
    requires !HandleBet(g, q, 10).crashed
    ensures var h := HandleBet(g, q, 10);
      && h.phase.Playing? && h.turnOrder == [p, q] && h.currentPlayerIndex == 0 && h.turnIndex == turnIndex
      && p in h.players && Untouched(h.players[p])
      && q in h.players && |h.players[q].hand| == 2
      && h.players[q].chips >= h.players[q].bet
  {
    var order := [p, q];
    var placed := PlaceBet(g, q, 10);
    assert AllBet(placed);
    assert p in order && q in order && AllSeated(placed.players, order) && NoDup(order);
    assert placed.turnOrder == order;
    hide DealHands, Gathered, PlaceBet, AllBet;
    assert HandleBet(g, q, 10) == DealCards(placed);
    if !DealCards(placed).crashed {
      DealsInOrder(placed.players, placed.deck, order, 0);
      DealsInOrder(placed.players, placed.deck, order, 1);
    }
  }

  /** Two players join, the game starts and the first one bets. */
  function GatheredTable(p: PlayerId, q: PlayerId, turnIndex: Option<int>): Game {
    HandleBet(Start(Join(Join(Init(turnIndex), p), q), []), p, 10)
  }

  lemma TwoGather(p: PlayerId, q: PlayerId, turnIndex: Option<int>)
    requires p != q
    ensures Gathered(GatheredTable(p, q, turnIndex), [p, q], {p}, turnIndex)
    ensures GatheredTable(p, q, turnIndex).phase.Betting?
  {
    hide Shoe, Shuffled, DealCards;
    var g := Start(Join(Join(Init(turnIndex), p), q), []);
    assert g.turnOrder == [p, q];
    assert q in g.turnOrder && g.players[q].bet == 0;
  }

  ghost predicate RoomAt(r: Room, members: set<PlayerId>, isPlaying: bool, g: Game) {
    !r.destroyed && r.players.Keys == members && r.maxPlayers >= 2 && r.isPlaying == isPlaying && r.game == g
  }

  lemma JoinAt(r: Room, members: set<PlayerId>, g: Game, p: PlayerId)
    requires RoomAt(r, members, false, g) && !g.crashed && |members| < 2 && p !in members
    ensures RoomAt(Next(r, Deliver(MsgPlayerJoin(p, Some("")))), members + {p}, false, Join(g, p))
  {
    hide Join;
    MapSizes(r.players, p, Member("", false));
  }

  lemma StartAt(r: Room, members: set<PlayerId>, g: Game)
    requires RoomAt(r, members, false, g) && !g.crashed
    ensures RoomAt(Next(r, Deliver(MsgGameStart([]))), members, true, Start(g, []))
  {
    hide Start;
  }

  lemma BetAt(r: Room, members: set<PlayerId>, g: Game, p: PlayerId)
    requires RoomAt(r, members, true, g) && !g.crashed && p in members
    ensures RoomAt(Next(r, Deliver(MsgPlayerAction(p, Bet(10)))), members, true, HandleBet(g, p, 10))
  {
    hide HandleBet;
  }

  function TwoPlayers(p: PlayerId, q: PlayerId): seq<Step> {
    [Deliver(MsgPlayerJoin(p, Some(""))), Deliver(MsgPlayerJoin(q, Some(""))), Deliver(MsgGameStart([])),
     Deliver(MsgPlayerAction(p, Bet(10))), Deliver(MsgPlayerAction(q, Bet(10)))]
  }

  lemma RunOfFive(m: int, t: Option<int>, a: Step, b: Step, c: Step, d: Step, e: Step)
    ensures Run(m, t, [a, b, c, d, e]) == Next(Next(Next(Next(Next(NewRoom(m, t), a), b), c), d), e)
  {
    hide Next;
    assert [a, b, c, d, e][..4] == [a, b, c, d] && [a, b, c, d][..3] == [a, b, c];
    assert [a, b, c][..2] == [a, b] && [a, b][..1] == [a] && [a][..0] == [];
    RunStep(m, t, [a]);
    RunStep(m, t, [a, b]);
    RunStep(m, t, [a, b, c]);
    RunStep(m, t, [a, b, c, d]);
    RunStep(m, t, [a, b, c, d, e]);
  }

  lemma TwoPlayersRun(maxPlayers: int, turnIndex: Option<int>, p: PlayerId, q: PlayerId)
    requires p != q && maxPlayers >= 2
    ensures var r := Run(maxPlayers, turnIndex, TwoPlayers(p, q));
      !r.destroyed && r.game == HandleBet(GatheredTable(p, q, turnIndex), q, 10)
  {
    var s := TwoPlayers(p, q);
    RunOfFive(maxPlayers, turnIndex, s[0], s[1], s[2], s[3], s[4]);
    assert s == [s[0], s[1], s[2], s[3], s[4]];
    TwoGather(p, q, turnIndex);
    assert !Join(Init(turnIndex), p).crashed && !Join(Join(Init(turnIndex), p), q).crashed;
    hide Next, Run, Join, HandleBet;
    var r0 := NewRoom(maxPlayers, turnIndex);
    var g0 := Init(turnIndex);
    assert RoomAt(r0, {}, false, g0);
    JoinAt(r0, {}, g0, p);
    var r1 := Next(r0, s[0]);
    JoinAt(r1, {p}, Join(g0, p), q);
    var r2 := Next(r1, s[1]);
    StartAt(r2, {p} + {q}, Join(Join(g0, p), q));
    var r3 := Next(r2, s[2]);
    BetAt(r3, {p} + {q}, Start(Join(Join(g0, p), q), []), p);
    var r4 := Next(r3, s[3]);
    BetAt(r4, {p} + {q}, GatheredTable(p, q, turnIndex), q);
  }

  /** The table of that run is alive, in any room of at least two seats. */
  lemma TwoPlayersAlive(maxPlayers: int, turnIndex: Option<int>, p: PlayerId, q: PlayerId)
    requires p != q && maxPlayers >= 2
    ensures var r := Run(maxPlayers, turnIndex, TwoPlayers(p, q)); Live(r) && r.game.deck != []
    ensures var g := Run(maxPlayers, turnIndex, TwoPlayers(p, q)).game;
      && g.phase.Playing? && g.turnOrder == [p, q] && g.currentPlayerIndex == 0 && g.turnIndex == turnIndex
      && p in g.players && Untouched(g.players[p])
      && q in g.players && |g.players[q].hand| == 2
      && g.players[q].chips >= g.players[q].bet
  {
    hide Run, Next, HandleBet, TableOk, GatheredTable, TwoPlayers;
    TwoPlayersRun(maxPlayers, turnIndex, p, q);
    TwoPlayersRun(2, turnIndex, p, q);
    TwoGather(p, q, turnIndex);
    DeckNeverRunsOut(2, turnIndex, TwoPlayers(p, q));
    GatherDeal(GatheredTable(p, q, turnIndex), p, q, turnIndex);
    RunOk(2, turnIndex, TwoPlayers(p, q));
    DeckLeft(Run(2, turnIndex, TwoPlayers(p, q)).game, 2);
  }

  lemma DeckLeft(g: Game, cap: nat)
    requires TableOk(g, cap) && g.phase.Playing? && cap <= SAFE_SEATS
    ensures g.deck != []
  {
    DealerStaysLow(g);
    DeckNotEmpty(g, cap);
  }

  lemma LastDoubles(g: Game, p: PlayerId)
    requires g.turnOrder == [p, EMPTY_ID] && g.currentPlayerIndex == 0 && p != EMPTY_ID && g.deck != [] && !g.crashed
    requires p in g.players && EMPTY_ID in g.players
    ensures var h := AdvanceTurn(DoubledTable(g, EMPTY_ID));
      !h.crashed && h.phase.Dealer? && h.currentPlayerIndex >= 2 && p in h.players && h.players[p] == g.players[p]
  {
    hide AdvanceTurn, Value;
    var d := DoubledTable(g, EMPTY_ID);
    AdvanceStops(d);
    assert !Active(d.players[EMPTY_ID]);
  }

  /**
    When somebody can stray, it happens: two players join and bet, the second one, with the empty
    id, doubles first, the dealer plays, and the first never gets to act.
  */
  lemma TurnsBreakInSomeRun(maxPlayers: int, turnIndex: Option<int>, p: PlayerId)
    requires p != EMPTY_ID && maxPlayers >= 2 && !(turnIndex.Some? && turnIndex.value <= 1)
    ensures var r := Run(maxPlayers, turnIndex, TwoPlayers(p, EMPTY_ID));
      var step := Deliver(MsgPlayerAction(EMPTY_ID, Double));
      var h := Next(r, step).game;
      && Live(r) && r.game.phase.Playing? && IsCurrent(r.game, p)
      && StrayStep(r, step) && !IndexFollows(r, Next(r, step), step)
      && !h.crashed && h.phase.Dealer? && p in r.game.players && p in h.players
      && h.players[p] == r.game.players[p] && Untouched(r.game.players[p])
  {
    hide Run, HandleDouble, TableOk, AdvanceTurn, TwoPlayers, Value, Weigh;
    var r := Run(maxPlayers, turnIndex, TwoPlayers(p, EMPTY_ID));
    TwoPlayersAlive(maxPlayers, turnIndex, p, EMPTY_ID);
    RunOk(maxPlayers, turnIndex, TwoPlayers(p, EMPTY_ID));
    assert r.isPlaying && EMPTY_ID in r.players;
    var step := Deliver(MsgPlayerAction(EMPTY_ID, Double));
    PlayOf(r, step);
    hide Next;
    DoubleIsOneChange(r.game, EMPTY_ID);
    LastDoubles(r.game, p);
  }

  /** In every run of that room whose joiners come from `ids` the index keeps to single positions. */
  ghost predicate IndexAlwaysFollows(maxPlayers: int, turnIndex: Option<int>, ids: set<PlayerId>) {
    forall steps, step :: JoinersFrom(steps, ids) ==>
      IndexFollows(Run(maxPlayers, turnIndex, steps), Next(Run(maxPlayers, turnIndex, steps), step), step)
  }

  /** In every such run every accepted hit, stand and double is the current player's. */
  ghost predicate AlwaysInTurn(maxPlayers: int, turnIndex: Option<int>, ids: set<PlayerId>) {
    forall steps, step :: JoinersFrom(steps, ids) ==> !StrayStep(Run(maxPlayers, turnIndex, steps), step)
  }

  /**
    The exact condition, over every run of every room: the index moves one position at a time, and
    only the current player's actions are accepted, each if and only if the room has at most one
    seat, or nobody who joins has the empty id, or nobody else joins, or `turnIndex` is given and
    at most 1.  It says nothing of who loses a turn to a leave; `LostTurns` does.
  */
  lemma InTurnExactly(maxPlayers: int, turnIndex: Option<int>, ids: set<PlayerId>)
    ensures IndexAlwaysFollows(maxPlayers, turnIndex, ids) <==> !StraysPossible(maxPlayers, turnIndex, ids)
    ensures AlwaysInTurn(maxPlayers, turnIndex, ids) <==> !StraysPossible(maxPlayers, turnIndex, ids)
  {
    hide Run, Next, IndexFollows, StrayStep, TwoPlayers;
    if StraysPossible(maxPlayers, turnIndex, ids) {
      var p := Another(ids);
      TurnsBreakInSomeRun(maxPlayers, turnIndex, p);
      TwoJoiners(p, EMPTY_ID, ids);
    } else {
      forall steps, step | JoinersFrom(steps, ids)
        ensures IndexFollows(Run(maxPlayers, turnIndex, steps), Next(Run(maxPlayers, turnIndex, steps), step), step)
        ensures !StrayStep(Run(maxPlayers, turnIndex, steps), step)
      {
        IndexFollowsInRuns(maxPlayers, turnIndex, ids, steps, step);
      }
    }
  }

  lemma Another(ids: set<PlayerId>) returns (p: PlayerId)
    requires EMPTY_ID in ids && ids != {EMPTY_ID}
    ensures p in ids && p != EMPTY_ID
  {
    assert ids - {EMPTY_ID} != {};
    p :| p in ids - {EMPTY_ID};
  }

  lemma TwoJoiners(p: PlayerId, q: PlayerId, ids: set<PlayerId>)
    requires p in ids && q in ids
    ensures JoinersFrom(TwoPlayers(p, q), ids)
  {
  }
}
