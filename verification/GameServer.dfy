/**
  The blackjack script run imperatively: an object whose hooks update its fields, as the
  script updates `this.state`.  Every hook is proved to compute what `Blackjack` specifies.
*/
module GameServer {
  import opened Prelude
  import opened Cards
  import opened Engine
  import opened Blackjack
  import opened TableLaws

  class GameServer {
    var phase: Phase
    var deck: seq<Card>
    var players: map<PlayerId, Seat>
    var dealerHand: seq<Card>
    var currentPlayerIndex: nat
    var turnOrder: seq<PlayerId>
    var pot: int
    const turnIndex: Option<int>
    const engine: TimerTable
    var drawPending: bool
    var crashed: bool
    var outbox: seq<Notice>
    ghost var hist: History

    ghost function View(): Game
      reads this, engine
    {
      Game(phase, deck, players, dealerHand, currentPlayerIndex, turnOrder, pot, turnIndex,
           engine.View(), drawPending, crashed, outbox, hist)
    }

    /** The sandbox's default timer limit is in force. */
    predicate Valid() { engine.cap == MAX_ACTIVE_TIMERS }

    /** The outcome of a hook: what the specification says, or a throw exactly when it says so. */
    ghost predicate Became(g: Game)
      reads this, engine
    {
      crashed == g.crashed && (!crashed ==> View() == g)
    }

    constructor (turnIndex: Option<int>)
      ensures Valid() && fresh(engine)
      ensures View() == Init(turnIndex)
    {
      phase, deck, players, dealerHand := Waiting, [], map[], [];
      currentPlayerIndex, turnOrder, pot := 0, [], 0;
      this.turnIndex := turnIndex;
      var table := new TimerTable(MAX_ACTIVE_TIMERS);
      engine := table;
      drawPending, crashed, outbox, hist := false, false, [], NO_HISTORY;
    }

    method Refuse(p: PlayerId, code: int)
      modifies this`outbox
      ensures View() == Blackjack.Refuse(old(View()), p, code)
    {
      outbox := outbox + [Refused(p, code)];
    }

    method OnPlayerJoin(p: PlayerId)
      modifies this
      ensures View() == Join(old(View()), p)
    {
      if phase != Waiting {
        Refuse(p, 40001);
        return;
      }
      players := players[p := Seat(1000, [], 0, false, false, Undecided)];
      turnOrder := turnOrder + [p];
      hist := hist.(joins := hist.joins + 1);
    }

    method RemoveSeat(p: PlayerId)
      modifies this`players, this`turnOrder, this`hist
      ensures players == old(players) - {p}
      ensures hist == Departure(old(View()), p)
      ensures turnOrder == Spliced(old(turnOrder), p)
    {
      hide Departure;
      hist := Departure(View(), p);
      Splice(p);
      players := players - {p};
    }

    /** Take the player out of the turn order, if there. */
    method Splice(p: PlayerId)
      modifies this`turnOrder
      ensures turnOrder == Spliced(old(turnOrder), p)
    {
      var idx := IndexOf(turnOrder, p);
      if idx >= 0 {
        turnOrder := Without(turnOrder, idx);
      }
    }

    method OnPlayerLeave(p: PlayerId)
      requires Valid()
      modifies this, engine
      ensures View() == Leave(old(View()), p)
    {
      hide Blackjack.AdvanceTurn, IndexOf, Departure;
      ghost var g := View();
      RemoveSeat(p);
      assert View() == Unseat(g, p);
      if phase == Playing && |turnOrder| > 0 {
        AdvanceTurn();
      }
    }

    method OnGameStart(clock: seq<int>)
      modifies this
      ensures View() == Start(old(View()), clock)
    {
      var shoe := BuildShoe();
      var arr := new Card[|shoe|](i requires 0 <= i < |shoe| => shoe[i]);
      assert arr[..] == shoe;
      var shuffled := Shuffle(arr, clock);
      deck := shuffled[..];
      phase := Betting;
    }

    method OnPlayerAction(p: PlayerId, action: Action)
      requires Valid() && !crashed
      modifies this, engine
      ensures Became(Act(old(View()), p, action))
    {
      hide Blackjack.HandleBet, Blackjack.HandleHit, Blackjack.HandleStand, Blackjack.HandleDouble;
      match action
      case Bet(amount) => HandleBet(p, amount);
      case Hit => HandleHit(p);
      case Stand => HandleStand(p);
      case Double => HandleDouble(p);
      case Unknown => Refuse(p, 40002);
    }

    method HandleBet(p: PlayerId, amount: int)
      requires Valid() && !crashed
      modifies this
      ensures Became(Blackjack.HandleBet(old(View()), p, amount))
    {
      if phase != Betting {
        Refuse(p, 40003);
        return;
      }
      if p !in players {
        return;
      }
      if amount < 10 || amount > 500 {
        Refuse(p, 40004);
        return;
      }
      if amount > players[p].chips {
        Refuse(p, 40005);
        return;
      }
      ghost var placed := PlaceBet(View(), p, amount);
      hist := hist.(forfeited := hist.forfeited + players[p].bet);
      players := players[p := players[p].(bet := amount, chips := players[p].chips - amount)];
      pot := pot + amount;
      assert View() == placed;

      var allBet, i := true, 0;
      while allBet && i < |turnOrder|
        invariant i <= |turnOrder|
        invariant View() == placed
        invariant allBet ==> forall q :: q in turnOrder[..i] ==> q in players && players[q].bet > 0
        invariant !allBet ==> !AllBet(placed)
      {
        var q := turnOrder[i];
        assert q in turnOrder;
        allBet := q in players && players[q].bet > 0;
        i := i + 1;
      }
      if allBet {
        assert turnOrder[..i] == turnOrder;
        DealCards();
      }
    }

    method DealCards()
      requires Valid() && !crashed
      modifies this`phase, this`deck, this`players, this`dealerHand, this`currentPlayerIndex, this`crashed
      ensures Became(Blackjack.DealCards(old(View())))
    {
      hide DealHands;
      phase := Playing;
      DealToPlayers();
      var n := |deck|;
      if crashed || n < 2 {
        crashed := true;
        return;
      }
      dealerHand, deck := [deck[n - 1], deck[n - 2]], deck[..n - 2];
      currentPlayerIndex := 0;
    }

    /** The loop that pops two cards for each player. */
    method DealToPlayers()
      requires !crashed
      modifies this`deck, this`players, this`crashed
      ensures crashed <==> !AllSeated(old(players), turnOrder) || |old(deck)| < 2 * |turnOrder|
      ensures !crashed ==> (players, deck) == DealHands(old(players), old(deck), turnOrder)
    {
      hide DealHands, DealsTo;
      ghost var g := View();
      ghost var enough := AllSeated(players, turnOrder) && |deck| >= 2 * |turnOrder|;
      DealsToStart(g);
      for k := 0 to |turnOrder|
        invariant !crashed && players.Keys == g.players.Keys
        invariant |deck| == |g.deck| - 2 * k
        invariant AllSeated(g.players, turnOrder[..k])
        invariant enough ==> DealsTo(g, players, deck, turnOrder[k..])
      {
        var p := turnOrder[k];
        assert p in turnOrder;
        if p !in players || |deck| < 2 {
          crashed := true;
          return;
        }
        assert turnOrder[k..][0] == p && turnOrder[k..][1..] == turnOrder[k + 1..];
        if enough {
          DealsToNext(g, players, deck, turnOrder[k..]);
        }
        var n := |deck|;
        players := players[p := players[p].(hand := [deck[n - 1], deck[n - 2]])];
        deck := deck[..n - 2];
        assert turnOrder[..k + 1] == turnOrder[..k] + [p];
      }
      assert turnOrder[..|turnOrder|] == turnOrder;
      DealsToEnd(g, players, deck);
    }

    method AdvanceTurn()
      requires Valid()
      modifies this, engine
      ensures View() == Blackjack.AdvanceTurn(old(View()))
      decreases |turnOrder| - currentPlayerIndex
    {
      currentPlayerIndex := currentPlayerIndex + 1;
      if currentPlayerIndex >= |turnOrder| {
        DealerPlay();
        return;
      }
      var nextPid := turnOrder[currentPlayerIndex];
      if nextPid in players && (players[nextPid].busted || players[nextPid].stood) {
        AdvanceTurn();
      }
    }

    method HandleHit(p: PlayerId)
      requires Valid() && !crashed
      modifies this, engine
      ensures Became(Blackjack.HandleHit(old(View()), p))
    {
      hide Blackjack.AdvanceTurn, Value, Weigh;
      if phase != Playing {
        return;
      }
      if !(currentPlayerIndex < |turnOrder| && turnOrder[currentPlayerIndex] == p) {
        Refuse(p, 40006);
        return;
      }
      if p !in players || deck == [] {
        crashed := true;
        return;
      }
      ghost var g := View();
      var card := deck[|deck| - 1];
      deck := deck[..|deck| - 1];
      players := players[p := players[p].(hand := players[p].hand + [card])];
      var value := HandValue(players[p].hand);
      if value > 21 {
        players := players[p := players[p].(busted := true)];
      } else if value == 21 {
        players := players[p := players[p].(stood := true)];
      }
      assert players == HitTable(g, p).players;
      assert View() == HitTable(g, p);
      HitIsOneChange(g, p);
      AdvanceNeverCrashes(View());
      if value >= 21 {
        AdvanceTurn();
      }
    }

    method HandleStand(p: PlayerId)
      requires Valid() && !crashed
      modifies this, engine
      ensures Became(Blackjack.HandleStand(old(View()), p))
    {
      hide Blackjack.AdvanceTurn, Value, Weigh;
      if phase != Playing {
        return;
      }
      if !(currentPlayerIndex < |turnOrder| && turnOrder[currentPlayerIndex] == p) {
        Refuse(p, 40006);
        return;
      }
      if p !in players {
        crashed := true;
        return;
      }
      players := players[p := players[p].(stood := true)];
      AdvanceNeverCrashes(View());
      AdvanceTurn();
    }

    method HandleDouble(p: PlayerId)
      requires Valid() && !crashed
      modifies this, engine
      ensures Became(Blackjack.HandleDouble(old(View()), p))
    {
      hide Blackjack.AdvanceTurn, Value, Weigh;
      if phase != Playing {
        return;
      }
      var mine := p == EMPTY_ID;
      if turnIndex.Some? && turnIndex.value < |turnOrder| {
        mine := currentPlayerIndex < |turnOrder| && turnOrder[currentPlayerIndex] == p;
      }
      if !mine {
        Refuse(p, 40006);
        return;
      }
      if p !in players {
        crashed := true;
        return;
      }
      if |players[p].hand| != 2 {
        Refuse(p, 40007);
        return;
      }
      if players[p].chips < players[p].bet {
        Refuse(p, 40005);
        return;
      }
      if deck == [] {
        crashed := true;
        return;
      }
      DoubleIsOneChange(View(), p);
      TakeDouble(p);
      AdvanceNeverCrashes(View());
      AdvanceTurn();
    }

    /** The accepted double: stake the bet again, take exactly one card and stand. */
    method TakeDouble(p: PlayerId)
      requires p in players && deck != []
      modifies this`players, this`pot, this`deck
      ensures View() == DoubledTable(old(View()), p)
    {
      hide Value, Weigh;
      ghost var was := players;
      var player := players[p];
      pot := pot + player.bet;
      player := player.(chips := player.chips - player.bet, bet := player.bet * 2);
      var card := deck[|deck| - 1];
      deck := deck[..|deck| - 1];
      player := player.(hand := player.hand + [card], stood := true);
      var value := HandValue(player.hand);
      if value > 21 {
        player := player.(busted := true);
      }
      players := players[p := player];
    }

    method ScheduleDraw()
      requires Valid()
      modifies this`drawPending, engine
      ensures View() == Blackjack.ScheduleDraw(old(View()))
    {
      var id := engine.SetTimeout();
      drawPending := id.Some?;
    }

    method DealerPlay()
      requires Valid()
      modifies this, engine
      ensures View() == Blackjack.DealerPlay(old(View()))
    {
      phase := Dealer;
      hist := hist.(dealerEntries := hist.dealerEntries + 1);
      ScheduleDraw();
    }

    /** The scheduled `draw`. */
    method Draw()
      requires Valid() && !crashed
      modifies this, engine
      ensures Became(Blackjack.Draw(old(View())))
    {
      hide Value, Weigh, Blackjack.ResolveGame;
      var dv := HandValue(dealerHand);
      if dv < 17 {
        if deck == [] {
          crashed := true;
          return;
        }
        var card := deck[|deck| - 1];
        deck := deck[..|deck| - 1];
        dealerHand := dealerHand + [card];
        ScheduleDraw();
      } else {
        drawPending := false;
        ResolveGame();
      }
    }

    /** The branches of resolveGame for one player. */
    method SettleSeat(seat: Seat, dealerValue: int) returns (player: Seat)
      ensures player == Settle(seat, dealerValue)
    {
      hide Value, Weigh;
      player := seat;
      var playerValue := HandValue(player.hand);
      if player.busted {
        player := player.(result := Lose);
      } else if dealerValue > 21 {
        player := player.(result := Win, chips := player.chips + player.bet * 2);
      } else if playerValue > dealerValue {
        player := player.(result := Win, chips := player.chips + player.bet * 2);
      } else if playerValue == dealerValue {
        player := player.(result := Push, chips := player.chips + player.bet);
      } else {
        player := player.(result := Lose);
      }
    }

    /** The loop of resolveGame over the turn order. */
    method SettleSeats(dealerValue: int) returns (winners: seq<PlayerId>, scores: map<PlayerId, int>, ghost paid: int)
      requires !crashed
      modifies this`players, this`crashed
      ensures crashed <==> !AllSeated(old(players), turnOrder)
      ensures !crashed ==>
        Settlement(players, winners, scores, paid) == SettleAll(old(players), turnOrder, dealerValue)
    {
      hide Value, Weigh, Settle, SettleAll;
      ghost var seats := players;
      SettleNone(seats, dealerValue);
      winners, scores, paid := [], map[], 0;
      for k := 0 to |turnOrder|
        invariant !crashed && players.Keys == seats.Keys
        invariant AllSeated(seats, turnOrder[..k])
        invariant Settlement(players, winners, scores, paid) == SettleAll(seats, turnOrder[..k], dealerValue)
      {
        var p := turnOrder[k];
        assert p in turnOrder;
        if p !in players {
          crashed := true;
          return;
        }
        SettleNext(seats, turnOrder, k, dealerValue);
        var player := SettleSeat(players[p], dealerValue);
        if player.result == Win {
          winners := winners + [p];
        }
        paid := paid + Payout(player.result, player.bet);
        players := players[p := player];
        scores := scores[p := player.chips];
      }
      assert turnOrder[..|turnOrder|] == turnOrder;
    }

    method ResolveGame()
      requires Valid() && !crashed
      modifies this
      ensures Became(Blackjack.ResolveGame(old(View())))
    {
      hide Value, Weigh, SettleAll;
      var dealerValue := HandValue(dealerHand);
      var dealerBusted := dealerValue > 21;
      var winners, scores, paid := SettleSeats(dealerValue);
      if crashed {
        return;
      }
      phase := Ended;
      hist := hist.(paid := hist.paid + paid);
      outbox := outbox + [RoundResult(winners, scores, dealerValue, dealerBusted)];
    }
  }

  /** What is left to deal is what dealing the whole order from the start would deal. */
  ghost predicate DealsTo(g: Game, players: map<PlayerId, Seat>, deck: seq<Card>, rest: seq<PlayerId>) {
    && AllSeated(g.players, g.turnOrder) && |g.deck| >= 2 * |g.turnOrder|
    && AllSeated(players, rest) && |deck| >= 2 * |rest|
    && DealHands(players, deck, rest) == DealHands(g.players, g.deck, g.turnOrder)
  }

  lemma DealsToStart(g: Game)
    ensures AllSeated(g.players, g.turnOrder) && |g.deck| >= 2 * |g.turnOrder| ==>
      DealsTo(g, g.players, g.deck, g.turnOrder[0..])
  {
    assert g.turnOrder[0..] == g.turnOrder;
  }

  lemma DealsToNext(g: Game, players: map<PlayerId, Seat>, deck: seq<Card>, rest: seq<PlayerId>)
    requires DealsTo(g, players, deck, rest) && rest != [] && rest[0] in players && |deck| >= 2
    ensures var n := |deck|;
      DealsTo(g, players[rest[0] := players[rest[0]].(hand := [deck[n - 1], deck[n - 2]])], deck[..n - 2], rest[1..])
  {
    assert forall p :: p in rest[1..] ==> p in rest;
  }

  lemma DealsToEnd(g: Game, players: map<PlayerId, Seat>, deck: seq<Card>)
    ensures DealsTo(g, players, deck, g.turnOrder[|g.turnOrder|..]) ==>
      DealHands(g.players, g.deck, g.turnOrder) == (players, deck)
  {
  }

  lemma SettleNone(players: map<PlayerId, Seat>, dealerValue: int)
    ensures SettleAll(players, [], dealerValue) == Settlement(players, [], map[], 0)
  {
  }

  /** One more turn of the loop. */
  lemma SettleNext(players: map<PlayerId, Seat>, order: seq<PlayerId>, k: nat, dealerValue: int)
    requires k < |order| && AllSeated(players, order[..k]) && order[k] in players
    ensures AllSeated(players, order[..k + 1])
    ensures var sofar := SettleAll(players, order[..k], dealerValue);
      var seat := Settle(sofar.players[order[k]], dealerValue);
      SettleAll(players, order[..k + 1], dealerValue)
        == Settlement(sofar.players[order[k] := seat],
                      if seat.result == Win then sofar.winners + [order[k]] else sofar.winners,
                      sofar.scores[order[k] := seat.chips],
                      sofar.paid + Payout(seat.result, seat.bet))
  {
    assert order[..k + 1][..k] == order[..k] && order[..k + 1][k] == order[k];
  }
}
