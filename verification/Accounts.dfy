/**
  What everybody has staked and gets back, told from the messages of a run and the hands alone:
  the amounts taken are 10 to 500 out of 1000 chips, and a hand returns twice its bet, its bet or
  nothing.
*/
module Accounts {
  import opened Prelude
  import opened Cards
  import opened Blackjack
  import opened Tally
  import opened TableInvariants
  import opened TurnLaws
  import opened ChipLaws
  import opened TableLaws
  import opened Room
  import opened RoomLaws
  import opened RoundLaws
  import opened RoundTermination
  import opened RoundTheorems

  // ----- One call -----

  predicate SameMoney(a: Seat, b: Seat) { b.chips == a.chips && b.bet == a.bet }

  lemma {:induction false} DealKeepsMoney(players: map<PlayerId, Seat>, deck: seq<Card>, order: seq<PlayerId>)
    requires AllSeated(players, order) && |deck| >= 2 * |order|
    ensures forall q :: q in players ==> SameMoney(players[q], DealHands(players, deck, order).0[q])
    decreases |order|
  {
    if order != [] {
      var n, p := |deck|, order[0];
      assert p in order;
      DealKeepsMoney(players[p := players[p].(hand := [deck[n - 1], deck[n - 2]])], deck[..n - 2], order[1..]);
    }
  }

  /** A bet that the script takes. */
  predicate BetFits(g: Game, p: PlayerId, amount: int) {
    p in g.players && g.phase.Betting? && 10 <= amount <= 500 && amount <= g.players[p].chips
  }

  /** Dealing changes hands only. */
  lemma DealCardsKeepsMoney(g: Game)
    ensures var h := DealCards(g);
      && h.players.Keys == g.players.Keys && h.pot == g.pot
      && forall q :: q in g.players ==> SameMoney(g.players[q], h.players[q])
  {
    hide DealHands;
    if AllSeated(g.players, g.turnOrder) && |g.deck| >= 2 * |g.turnOrder| {
      DealKeepsMoney(g.players, g.deck, g.turnOrder);
    }
  }

  /**
    A bet is taken exactly in the betting phase, from 10 to 500 and within the chips.  It moves the
    amount from that player's chips to the pot and is that player's bet from then on; nobody
    else's chips or bet change, whether or not the bet completes the betting.
  */
  lemma BetMovesTheAmount(g: Game, p: PlayerId, amount: int)
    requires p in g.players
    ensures var h := Act(g, p, Bet(amount));
      && h.players.Keys == g.players.Keys
      && (forall q :: q in g.players && q != p ==> SameMoney(g.players[q], h.players[q]))
      && if BetFits(g, p, amount)
         then h.players[p].bet == amount && h.players[p].chips == g.players[p].chips - amount && h.pot == g.pot + amount
         else h.players == g.players && h.pot == g.pot && h.phase == g.phase
  {
    hide DealCards;
    DealCardsKeepsMoney(PlaceBet(g, p, amount));
  }

  lemma BetPhases(g: Game, p: PlayerId, amount: int)
    requires p in g.players
    ensures var h := Act(g, p, Bet(amount));
      (h.phase.Ended? <==> g.phase.Ended?) && (h.phase.Waiting? <==> g.phase.Waiting?)
      && (g.phase.Ended? ==> h.dealerHand == g.dealerHand)
  {
    hide DealHands;
  }

  /** A double that the script takes. */
  predicate DoubleFits(g: Game, p: PlayerId) {
    p in g.players && g.phase.Playing? && Accepted(g, PlayerAction(p, Double))
  }

  lemma DoubleMovesTheBet(g: Game, p: PlayerId)
    requires p in g.players && !Act(g, p, Double).crashed
    ensures var h := Act(g, p, Double);
      && h.players.Keys == g.players.Keys
      && (forall q :: q in g.players && q != p ==> h.players[q] == g.players[q])
      && (h.phase.Ended? <==> g.phase.Ended?) && (h.phase.Waiting? <==> g.phase.Waiting?)
      && h.dealerHand == g.dealerHand
      && if DoubleFits(g, p)
         then var bet := g.players[p].bet;
              h.players[p].bet == 2 * bet && h.players[p].chips == g.players[p].chips - bet && h.pot == g.pot + bet
         else h.players == g.players && h.pot == g.pot
  {
    hide AdvanceTurn, Value;
    if DoubleFits(g, p) && g.deck != [] {
      DoubleIsOneChange(g, p);
      AdvanceStops(DoubledTable(g, p));
    }
  }

  lemma HitOrStandMovesNothing(g: Game, p: PlayerId, action: Action)
    requires p in g.players && (action.Hit? || action.Stand? || action.Unknown?) && !Act(g, p, action).crashed
    ensures var h := Act(g, p, action);
      && h.players.Keys == g.players.Keys && h.pot == g.pot
      && (forall q :: q in g.players ==> SameMoney(g.players[q], h.players[q]))
      && (!g.phase.Playing? ==> h.players == g.players)
      && (h.phase.Ended? <==> g.phase.Ended?) && (h.phase.Waiting? <==> g.phase.Waiting?)
      && h.dealerHand == g.dealerHand
  {
    hide AdvanceTurn, Value;
    if g.phase.Playing? && IsCurrent(g, p) {
      if action.Hit? && g.deck != [] {
        HitIsOneChange(g, p);
        HitSeatHand(g.players[p], g.deck[|g.deck| - 1]);
        AdvanceStops(HitTable(g, p));
      } else if action.Stand? {
        AdvanceStops(SetSeat(g, p, g.players[p].(stood := true)));
      }
    }
  }

  lemma LeaveMovesNothing(g: Game, p: PlayerId)
    ensures var h := Leave(g, p);
      && h.players == g.players - {p} && h.pot == g.pot && h.dealerHand == g.dealerHand
      && (h.phase.Ended? <==> g.phase.Ended?) && (h.phase.Waiting? <==> g.phase.Waiting?)
  {
    hide AdvanceTurn, Value, IndexOf, Departure;
    AdvanceStops(Unseat(g, p));
  }

  lemma StartMovesNothing(g: Game, clock: seq<int>)
    ensures var h := Start(g, clock); h.players == g.players && h.pot == g.pot && h.phase.Betting?
  {
  }

  /** The scheduled draw pays nothing while the dealer draws, and everybody's due when the dealer stands. */
  lemma DrawPays(g: Game, cap: nat)
    requires TableOk(g, cap) && g.drawPending && !Draw(g).crashed
    ensures var h := Draw(g);
      && !h.phase.Waiting? && !g.phase.Ended? && h.pot == g.pot && h.players.Keys == g.players.Keys
      && (h.phase.Ended? <==> Value(g.dealerHand) >= 17)
      && if Value(g.dealerHand) >= 17
         then h.dealerHand == g.dealerHand
              && forall q :: q in g.players ==>
                && h.players[q].hand == g.players[q].hand && h.players[q].bet == g.players[q].bet
                && h.players[q].chips == g.players[q].chips + Due(g.players[q].hand, g.dealerHand, g.players[q].bet)
         else h.players == g.players
  {
    hide Value, Weigh, Sum, SettleAll;
    assert g.phase.Dealer?;
    if Value(g.dealerHand) >= 17 {
      assert FlagsRight(g.players);
      ResolveSettles(g.(drawPending := false));
    }
  }

  // ----- Over runs -----

  /** All that a player has put in so far, and the bet that is on the table. */
  datatype Account = Account(staked: int, bet: int)

  /** A call changes the account of the player who bets or doubles, and no other. */
  function AccountMoved(a: Account, g: Game, move: Move, p: PlayerId): Account {
    if p !in g.players then a
    else
      match move
      case PlayerAction(q, Bet(amount)) =>
        if q == p && g.phase.Betting? && 10 <= amount <= 500 && a.staked + amount <= 1000
        then Account(a.staked + amount, amount) else a
      case PlayerAction(q, Double) =>
        if q == p && g.phase.Playing? && DoubleTurn(g, p) && |g.players[p].hand| == 2 && a.staked + a.bet <= 1000
        then Account(a.staked + a.bet, 2 * a.bet) else a
      case _ => a
  }

  function AccountAfter(a: Account, r: Room, step: Step, p: PlayerId): Account {
    if Live(r) && MoveOf(r, step).Some? then AccountMoved(a, r.game, MoveOf(r, step).value, p) else a
  }

  ghost function AccountOf(maxPlayers: int, turnIndex: Option<int>, steps: seq<Step>, p: PlayerId): Account
    decreases |steps|
  {
    if steps == [] then Account(0, 0)
    else
      var front, last := steps[..|steps| - 1], steps[|steps| - 1];
      AccountAfter(AccountOf(maxPlayers, turnIndex, front, p), Run(maxPlayers, turnIndex, front), last, p)
  }

  /** The player's seat is what the account says, and after the round what the hands make of it. */
  ghost predicate SeatAgrees(g: Game, a: Account, p: PlayerId) {
    && (g.phase.Waiting? ==> a == Account(0, 0))
    && (p in g.players ==>
          && g.players[p].bet == a.bet
          && g.players[p].chips
               == 1000 - a.staked + if g.phase.Ended? then Due(g.players[p].hand, g.dealerHand, a.bet) else 0)
  }

  lemma MoveAgrees(g: Game, a: Account, move: Move, p: PlayerId, cap: nat)
    requires TableOk(g, cap) && !g.crashed && Allowed(g, move, cap) && !Play(g, move).crashed
    requires SeatAgrees(g, a, p)
    ensures SeatAgrees(Play(g, move), AccountMoved(a, g, move, p), p)
  {
    hide TableOk, Act, Leave, Draw, Start, Due;
    match move
    case PlayerJoin(q) =>
    case PlayerLeave(q) => LeaveMovesNothing(g, q);
    case GameStart(clock) => StartMovesNothing(g, clock);
    case DealerDraw => DrawPays(g, cap);
    case PlayerAction(q, action) =>
      match action {
        case Bet(amount) => BetMovesTheAmount(g, q, amount); BetPhases(g, q, amount);
        case Double => DoubleMovesTheBet(g, q);
        case _ => HitOrStandMovesNothing(g, q, action);
      }
  }

  /** The step of a room is the move it makes, for the account as for the table. */
  lemma StepAgrees(r: Room, a: Account, step: Step, p: PlayerId)
    requires RoomOk(r) && Live(r) && Live(Next(r, step)) && SeatAgrees(r.game, a, p)
    ensures SeatAgrees(Next(r, step).game, AccountAfter(a, r, step, p), p)
  {
    hide TableOk, Next, Play, SeatAgrees, AccountMoved;
    if step.Deliver? && step.msg.MsgShutdown? {
      ShutdownIsNotLive(r);
    } else {
      StepIsMove(r, step);
      var move := MoveOf(r, step);
      if move.Some? {
        MoveAllowed(r, step);
        MoveAgrees(r.game, a, move.value, p, Capacity(r.maxPlayers));
      }
    }
  }

  lemma {:induction false} AccountsInRuns(maxPlayers: int, turnIndex: Option<int>, steps: seq<Step>, p: PlayerId)
    requires Live(Run(maxPlayers, turnIndex, steps))
    ensures SeatAgrees(Run(maxPlayers, turnIndex, steps).game, AccountOf(maxPlayers, turnIndex, steps, p), p)
    decreases |steps|
  {
    hide Next, RoomOk, Live, RunFrom, AccountAfter, SeatAgrees;
    if steps == [] {
      NothingStaked(maxPlayers, turnIndex, p);
    } else {
      var front, last := steps[..|steps| - 1], steps[|steps| - 1];
      var r := Run(maxPlayers, turnIndex, front);
      RunStep(maxPlayers, turnIndex, steps);
      RunOk(maxPlayers, turnIndex, front);
      if !Live(r) {
        DeadStaysDead(r, last);
      }
      AccountsInRuns(maxPlayers, turnIndex, front, p);
      StepAgrees(r, AccountOf(maxPlayers, turnIndex, front, p), last, p);
    }
  }

  lemma NothingStaked(maxPlayers: int, turnIndex: Option<int>, p: PlayerId)
    ensures SeatAgrees(Run(maxPlayers, turnIndex, []).game, Account(0, 0), p)
  {
  }

  /**
    The money of every seated player, in every live run: the bet is the amount of the last bet that
    was taken, twice that after a double; the chips are 1000 less everything put in, and after the
    round plus what the hand returns of the bet against the dealer's hand.
  */
  lemma MoneyFollowsMessages(maxPlayers: int, turnIndex: Option<int>, steps: seq<Step>, p: PlayerId)
    requires var r := Run(maxPlayers, turnIndex, steps); Live(r) && p in r.game.players
    ensures var g, a := Run(maxPlayers, turnIndex, steps).game, AccountOf(maxPlayers, turnIndex, steps, p);
      && g.players[p].bet == a.bet
      && g.players[p].chips
           == 1000 - a.staked + if g.phase.Ended? then Due(g.players[p].hand, g.dealerHand, a.bet) else 0
  {
    hide Run, AccountOf;
    AccountsInRuns(maxPlayers, turnIndex, steps, p);
  }

  // ----- The round's balance -----

  /** A bet of `p` that is taken although `p` has bet before. */
  predicate BetsOver(r: Room, step: Step, p: PlayerId) {
    Forfeits(r, step) && step.msg.MsgPlayerAction? && step.msg.p == p
  }

  /** What was put in beyond the bet on the table grows exactly by betting over a bet. */
  lemma OverGrows(r: Room, a: Account, step: Step, p: PlayerId)
    requires RoomOk(r) && Live(r) && SeatAgrees(r.game, a, p) && a.bet >= 0
    ensures var b := AccountAfter(a, r, step, p);
      && b.bet >= 0
      && b.staked - b.bet >= a.staked - a.bet
      && (b.staked - b.bet > a.staked - a.bet <==> BetsOver(r, step, p))
  {
    hide TableOk, Due;
    RoomTable(r);
  }

  lemma {:induction false} BetOverExactly(maxPlayers: int, turnIndex: Option<int>, steps: seq<Step>, p: PlayerId)
    requires Live(Run(maxPlayers, turnIndex, steps))
    ensures var a := AccountOf(maxPlayers, turnIndex, steps, p);
      && a.bet >= 0 && a.staked >= a.bet
      && (a.staked == a.bet
          <==> forall i :: 0 <= i < |steps| ==> !BetsOver(Run(maxPlayers, turnIndex, steps[..i]), steps[i], p))
    decreases |steps|
  {
    hide Next, RoomOk, Live, RunFrom, AccountAfter, SeatAgrees, BetsOver;
    if steps != [] {
      var n := |steps| - 1;
      var front, last := steps[..n], steps[n];
      var r := Run(maxPlayers, turnIndex, front);
      RunStep(maxPlayers, turnIndex, steps);
      RunOk(maxPlayers, turnIndex, front);
      if !Live(r) {
        DeadStaysDead(r, last);
      }
      forall i | 0 <= i < n ensures front[..i] == steps[..i] && front[i] == steps[i] {}
      BetOverExactly(maxPlayers, turnIndex, front, p);
      AccountsInRuns(maxPlayers, turnIndex, front, p);
      OverGrows(r, AccountOf(maxPlayers, turnIndex, front, p), last, p);
    }
  }

  /** How a round changes 1000 chips: by the bet, up or down or not at all, as the two hands compare. */
  function Balance(hand: seq<Card>, dealer: seq<Card>, bet: int): int {
    if Value(hand) > 21 then 1000 - bet
    else if Value(dealer) > 21 || Value(hand) > Value(dealer) then 1000 + bet
    else if Value(hand) == Value(dealer) then 1000
    else 1000 - bet
  }

  /**
    At the end of the round a seated player who has bet has 1000 chips and the bet on top, 1000, or
    1000 less the bet, as the hands compare, if and only if that player never bet over a bet.
  */
  lemma RoundBalancesExactly(maxPlayers: int, turnIndex: Option<int>, steps: seq<Step>, p: PlayerId)
    requires var r := Run(maxPlayers, turnIndex, steps); Live(r) && r.game.phase.Ended? && p in r.game.players
    ensures var g, bet := Run(maxPlayers, turnIndex, steps).game, AccountOf(maxPlayers, turnIndex, steps, p).bet;
      g.players[p].chips == Balance(g.players[p].hand, g.dealerHand, bet)
      <==> forall i :: 0 <= i < |steps| ==> !BetsOver(Run(maxPlayers, turnIndex, steps[..i]), steps[i], p)
  {
    hide Run, AccountOf, BetsOver, Value;
    MoneyFollowsMessages(maxPlayers, turnIndex, steps, p);
    BetOverExactly(maxPlayers, turnIndex, steps, p);
  }

  // ----- The pot -----

  /** What a step of a run puts into the pot. */
  ghost function StakedBy(maxPlayers: int, turnIndex: Option<int>, front: seq<Step>, step: Step): int {
    var r := Run(maxPlayers, turnIndex, front);
    if Live(r) && MoveOf(r, step).Some? && MoveOf(r, step).value.PlayerAction?
    then
      var a := AccountOf(maxPlayers, turnIndex, front, MoveOf(r, step).value.p);
      AccountAfter(a, r, step, MoveOf(r, step).value.p).staked - a.staked
    else 0
  }

  ghost function StakedInAll(maxPlayers: int, turnIndex: Option<int>, steps: seq<Step>): int
    decreases |steps|
  {
    if steps == [] then 0
    else
      var front := steps[..|steps| - 1];
      StakedInAll(maxPlayers, turnIndex, front) + StakedBy(maxPlayers, turnIndex, front, steps[|steps| - 1])
  }

  lemma MovePot(g: Game, a: Account, move: Move, cap: nat)
    requires TableOk(g, cap) && !g.crashed && Allowed(g, move, cap) && !Play(g, move).crashed
    requires move.PlayerAction? ==> SeatAgrees(g, a, move.p)
    ensures Play(g, move).pot - g.pot
      == if move.PlayerAction? then AccountMoved(a, g, move, move.p).staked - a.staked else 0
  {
    hide TableOk, Act, Leave, Draw, Start, Due;
    match move
    case PlayerJoin(q) =>
    case PlayerLeave(q) => LeaveMovesNothing(g, q);
    case GameStart(clock) => StartMovesNothing(g, clock);
    case DealerDraw => DrawPays(g, cap);
    case PlayerAction(q, action) =>
      match action {
        case Bet(amount) => BetMovesTheAmount(g, q, amount);
        case Double => DoubleMovesTheBet(g, q);
        case _ => HitOrStandMovesNothing(g, q, action);
      }
  }

  lemma StepPot(maxPlayers: int, turnIndex: Option<int>, front: seq<Step>, step: Step)
    requires var r := Run(maxPlayers, turnIndex, front); Live(r) && Live(Next(r, step))
    ensures var r := Run(maxPlayers, turnIndex, front);
      Next(r, step).game.pot - r.game.pot == StakedBy(maxPlayers, turnIndex, front, step)
  {
    hide TableOk, Next, Play, Run, AccountOf, AccountMoved;
    var r := Run(maxPlayers, turnIndex, front);
    RunOk(maxPlayers, turnIndex, front);
    if step.Deliver? && step.msg.MsgShutdown? {
      ShutdownIsNotLive(r);
    } else {
      StepIsMove(r, step);
      var move := MoveOf(r, step);
      if move.Some? {
        MoveAllowed(r, step);
        var a := Account(0, 0);
        if move.value.PlayerAction? {
          a := AccountOf(maxPlayers, turnIndex, front, move.value.p);
          AccountsInRuns(maxPlayers, turnIndex, front, move.value.p);
        }
        MovePot(r.game, a, move.value, Capacity(r.maxPlayers));
      }
    }
  }

  /** In every live run the pot is all that was ever staked, by those who left too: the script never empties it. */
  lemma {:induction false} PotIsAllStakes(maxPlayers: int, turnIndex: Option<int>, steps: seq<Step>)
    requires Live(Run(maxPlayers, turnIndex, steps))
    ensures Run(maxPlayers, turnIndex, steps).game.pot == StakedInAll(maxPlayers, turnIndex, steps)
    decreases |steps|
  {
    hide Next, RoomOk, Live, RunFrom, StakedBy;
    if steps != [] {
      var front, last := steps[..|steps| - 1], steps[|steps| - 1];
      var r := Run(maxPlayers, turnIndex, front);
      RunStep(maxPlayers, turnIndex, steps);
      RunOk(maxPlayers, turnIndex, front);
      if !Live(r) {
        DeadStaysDead(r, last);
      }
      PotIsAllStakes(maxPlayers, turnIndex, front);
      StepPot(maxPlayers, turnIndex, front, last);
    } else {
      EmptyPot(maxPlayers, turnIndex);
    }
  }

  lemma EmptyPot(maxPlayers: int, turnIndex: Option<int>)
    ensures Run(maxPlayers, turnIndex, []).game.pot == 0
  {
  }
}
