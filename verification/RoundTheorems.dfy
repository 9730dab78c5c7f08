/** The laws of the table, stated for every run of a room. */
module RoundTheorems {
  import opened Prelude
  import opened Cards
  import opened Engine
  import opened Blackjack
  import opened Tally
  import opened TableInvariants
  import opened TurnLaws
  import opened CardLaws
  import opened ChipLaws
  import opened TableLaws
  import opened Room
  import opened RoomLaws
  import opened RoundLaws

  // ----- Cards -----

  /** In every run, from the start of the game, the cards on the table are exactly six decks. */
  lemma CardsConservedInRuns(maxPlayers: int, turnIndex: Option<int>, steps: seq<Step>)
    ensures var r := Run(maxPlayers, turnIndex, steps);
      Live(r) && r.isPlaying ==> multiset(AllCards(r.game)) == multiset(Shoe())
  {
    hide Next, RunFrom, TableOk, CardsOk, AllCards, Shoe;
    var r := Run(maxPlayers, turnIndex, steps);
    RunOk(maxPlayers, turnIndex, steps);
    if Live(r) && r.isPlaying {
      TableCards(r.game, Capacity(r.maxPlayers));
      CardsConserved(r.game);
    }
  }

  lemma TableCards(g: Game, cap: nat)
    requires TableOk(g, cap)
    ensures CardsOk(g)
  {
  }

  // ----- Resolution -----

  /**
    Resolution refines the rules: when the dealer stands, the scheduled draw settles every seat
    by a pure function of its hand and bet and the dealer's hand, and sends the winners in turn
    order, everybody's chips and the dealer's value.
  */
  lemma ResolutionFollowsRules(maxPlayers: int, turnIndex: Option<int>, steps: seq<Step>)
    requires var r := Run(maxPlayers, turnIndex, steps);
      Live(r) && r.game.phase.Dealer? && Value(r.game.dealerHand) >= 17
    ensures var g := Run(maxPlayers, turnIndex, steps).game;
      var after := Run(maxPlayers, turnIndex, steps + [TimerFires]).game;
      Resolved(g, after)
  {
    hide Next, RunFrom, TableOk, Value;
    var r := Run(maxPlayers, turnIndex, steps);
    RunOk(maxPlayers, turnIndex, steps);
    TableResolves(r.game, Capacity(r.maxPlayers));
    PlayOf(r, TimerFires);
    assert (steps + [TimerFires])[..|steps|] == steps;
    RunStep(maxPlayers, turnIndex, steps + [TimerFires]);
  }

  ghost predicate Resolved(g: Game, after: Game) {
    && after.phase.Ended?
    && after.players.Keys == g.players.Keys
    && (forall p :: p in g.players ==> after.players[p] == RulesSeat(g.players[p], g.dealerHand))
    && after.outbox != [] && after.outbox[|after.outbox| - 1].RoundResult?
    && var report := after.outbox[|after.outbox| - 1];
       && report.winners == WinnersOf(g.players, g.dealerHand, g.turnOrder)
       && (forall p :: p in report.scores <==> p in g.players)
       && (forall p :: p in g.players ==> report.scores[p] == after.players[p].chips)
       && report.dealerValue == Value(g.dealerHand)
       && (report.dealerBusted <==> Value(g.dealerHand) > 21)
  }

  lemma TableResolves(g: Game, cap: nat)
    requires TableOk(g, cap) && g.phase.Dealer? && Value(g.dealerHand) >= 17
    ensures g.drawPending
    ensures Resolved(g, Draw(g))
  {
    hide Weigh, Sum, Value, SettleAll, WinnersOf;
    var idle := g.(drawPending := false);
    assert FlagsRight(g.players);
    ResolveSettles(idle);
    SettledReport(g.players, g.turnOrder, g.dealerHand);
    assert Draw(g) == ResolveGame(idle);
  }

  // ----- Chips -----

  /** The ledger: money in the pot, on the table, carried off and paid out. */
  lemma ChipLedger(maxPlayers: int, turnIndex: Option<int>, steps: seq<Step>)
    ensures var r := Run(maxPlayers, turnIndex, steps); var g := r.game;
      Live(r) ==>
        && g.pot + Sum(Chips, g.players, g.turnOrder) + g.hist.carried == 1000 * g.hist.joins + g.hist.paid
        && (!g.phase.Ended? ==> g.hist.paid == 0)
        && (forall p :: p in g.players ==> g.players[p].chips >= 0 && g.players[p].bet >= 0)
        && g.pot >= Sum(Bets, g.players, g.turnOrder)
        && (g.pot == Sum(Bets, g.players, g.turnOrder) <==> g.hist.forfeited == 0)
  {
    hide Next, RunFrom, TableOk, Sum;
    var r := Run(maxPlayers, turnIndex, steps);
    RunOk(maxPlayers, turnIndex, steps);
    if Live(r) {
      TableChips(r.game, Capacity(r.maxPlayers));
    }
  }

  lemma TableChips(g: Game, cap: nat)
    requires TableOk(g, cap)
    ensures ChipsOk(g)
    ensures forall p :: p in g.players ==> g.players[p].chips >= 0 && g.players[p].bet >= 0
  {
    hide Sum, Weigh, Value;
    forall p | p in g.players ensures g.players[p].chips >= 0 && g.players[p].bet >= 0 {
      assert SeatOk(g.phase, g.players[p]);
    }
  }

  /** Money is forfeited exactly by betting again over a bet, or by leaving with one. */
  lemma ForfeitsExplained(g: Game, move: Move)
    requires !g.crashed && !Play(g, move).crashed
    requires move.PlayerAction? ==> move.p in g.players
    ensures Play(g, move).hist.forfeited - g.hist.forfeited ==
      match move
      case PlayerLeave(p) => if p in g.players then g.players[p].bet else 0
      case PlayerAction(p, Bet(amount)) =>
        if g.phase.Betting? && MIN_BET <= amount <= MAX_BET && amount <= g.players[p].chips then g.players[p].bet else 0
      case _ => 0
  {
    hide AdvanceTurn, Value, Shuffled, DealHands, SettleAll;
    forall h: Game ensures AdvanceTurn(h).hist.forfeited == h.hist.forfeited {
      AdvanceStops(h);
    }
  }

  /**
    A step that forfeits a stake: an accepted bet by a player who has bet before, or the leave of
    a player who has.
  */
  predicate Forfeits(r: Room, step: Step) {
    Live(r) && step.Deliver? &&
    match step.msg
    case MsgPlayerLeave(p, _) => p in r.game.players && r.game.players[p].bet > 0
    case MsgPlayerAction(p, Bet(amount)) =>
      && p in r.game.players && r.game.phase.Betting?
      && 10 <= amount <= 500 && amount <= r.game.players[p].chips && r.game.players[p].bet > 0
    case _ => false
  }

  lemma StepForfeits(r: Room, step: Step)
    requires RoomOk(r) && Live(r) && Live(Next(r, step))
    ensures Next(r, step).game.hist.forfeited >= r.game.hist.forfeited
    ensures Next(r, step).game.hist.forfeited > r.game.hist.forfeited <==> Forfeits(r, step)
  {
    hide Play, TableOk, Next;
    if step.Deliver? && step.msg.MsgShutdown? {
      ShutdownIsNotLive(r);
    } else {
      StepIsMove(r, step);
      RoomTable(r);
      var move := MoveOf(r, step);
      if move.Some? {
        MoveAllowed(r, step);
        ForfeitsExplained(r.game, move.value);
      }
    }
  }

  lemma ShutdownIsNotLive(r: Room)
    ensures Next(r, Deliver(MsgShutdown)).destroyed
  {
    hide Play, Destroy;
  }

  /** What the room and the table share, and that no bet is negative. */
  lemma RoomTable(r: Room)
    requires RoomOk(r) && Live(r)
    ensures r.players.Keys == r.game.players.Keys && (r.isPlaying <==> !r.game.phase.Waiting?)
    ensures forall p :: p in r.game.players ==> r.game.players[p].bet >= 0
  {
    hide TableOk;
    TableChips(r.game, Capacity(r.maxPlayers));
  }

  lemma {:induction false} ForfeitsInRuns(maxPlayers: int, turnIndex: Option<int>, steps: seq<Step>)
    requires Live(Run(maxPlayers, turnIndex, steps))
    ensures Run(maxPlayers, turnIndex, steps).game.hist.forfeited >= 0
    ensures Run(maxPlayers, turnIndex, steps).game.hist.forfeited > 0 <==>
      exists i :: 0 <= i < |steps| && Forfeits(Run(maxPlayers, turnIndex, steps[..i]), steps[i])
    decreases |steps|
  {
    hide Next, RoomOk, Forfeits, Live, RunFrom;
    if steps == [] {
      NoForfeitsYet(maxPlayers, turnIndex);
    } else {
      var n := |steps| - 1;
      var front, last := steps[..n], steps[n];
      RunStep(maxPlayers, turnIndex, steps);
      RunOk(maxPlayers, turnIndex, front);
      var r := Run(maxPlayers, turnIndex, front);
      if !Live(r) {
        DeadStaysDead(r, last);
      }
      ForfeitsInRuns(maxPlayers, turnIndex, front);
      StepForfeits(r, last);
      forall i | 0 <= i < n ensures front[..i] == steps[..i] && front[i] == steps[i] {}
    }
  }

  lemma NoForfeitsYet(maxPlayers: int, turnIndex: Option<int>)
    ensures Run(maxPlayers, turnIndex, []).game.hist.forfeited == 0
  {
  }

  /**
    When the pot is exactly the bets on the table: in every live run, if and only if no step of it
    was a bet over a bet or a leave with one.
  */
  lemma PotIsBetsExactly(maxPlayers: int, turnIndex: Option<int>, steps: seq<Step>)
    requires Live(Run(maxPlayers, turnIndex, steps))
    ensures var g := Run(maxPlayers, turnIndex, steps).game;
      g.pot == Sum(Bets, g.players, g.turnOrder) <==>
      forall i :: 0 <= i < |steps| ==> !Forfeits(Run(maxPlayers, turnIndex, steps[..i]), steps[i])
  {
    hide Run, Sum, Forfeits;
    ForfeitsInRuns(maxPlayers, turnIndex, steps);
    ChipLedger(maxPlayers, turnIndex, steps);
  }
}
