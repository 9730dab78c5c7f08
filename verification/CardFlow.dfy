/**
  Where every card goes: the shuffled shoe is taken from the top, one card after another, and a
  hand is the cards at the places where its owner took one.
*/
module CardFlow {
  import opened Prelude
  import opened Cards
  import opened Engine
  import opened Blackjack
  import opened TableInvariants
  import opened TurnLaws
  import opened CardLaws
  import opened TableLaws
  import opened Room
  import opened RoomLaws
  import opened RoundLaws
  import opened RoundTheorems
  import opened Accounts

  /** Who takes a card: a player, or the dealer (None). */
  type Taker = Option<PlayerId>

  /** The cards that `who` gets when the deck is taken from the top by `takers`, in that order. */
  function HandFrom(deck: seq<Card>, takers: seq<Taker>, who: Taker): seq<Card>
    requires |takers| <= |deck|
    decreases |takers|
  {
    if takers == [] then []
    else
      var n := |deck| - 1;
      (if takers[0] == who then [deck[n]] else []) + HandFrom(deck[..n], takers[1..], who)
  }

  lemma {:induction false} OneMoreCard(deck: seq<Card>, takers: seq<Taker>, next: Taker, who: Taker)
    requires |takers| < |deck|
    ensures HandFrom(deck, takers + [next], who)
         == HandFrom(deck, takers, who) + if next == who then [deck[|deck| - 1 - |takers|]] else []
    decreases |takers|
  {
    var all, rest := takers + [next], deck[..|deck| - 1];
    if takers == [] {
      assert all[0] == next && all[1..] == [] && HandFrom(rest, [], who) == [];
    } else {
      assert all[0] == takers[0] && all[1..] == takers[1..] + [next];
      OneMoreCard(rest, takers[1..], next, who);
      assert rest[|rest| - 1 - |takers[1..]|] == deck[|deck| - 1 - |takers|];
    }
  }

  /** Two cards each, in order. */
  function DealOrder(order: seq<PlayerId>): (takers: seq<Taker>)
    ensures |takers| == 2 * |order|
  {
    if order == [] then [] else [Some(order[0]), Some(order[0])] + DealOrder(order[1..])
  }

  lemma FirstCard(deck: seq<Card>, takers: seq<Taker>, who: Taker)
    requires takers != [] && |takers| <= |deck|
    ensures var n := |deck| - 1;
      HandFrom(deck, takers, who)
        == (if takers[0] == who then [deck[n]] else []) + HandFrom(deck[..n], takers[1..], who)
  {
  }

  lemma DealOrderStep(deck: seq<Card>, order: seq<PlayerId>, who: Taker)
    requires order != [] && |deck| >= 2 * |order|
    ensures HandFrom(deck, DealOrder(order), who)
         == (if who == Some(order[0]) then DealtTo(deck, 0) else [])
            + HandFrom(deck[..|deck| - 2], DealOrder(order[1..]), who)
  {
    hide HandFrom;
    var takers, n := DealOrder(order), |deck|;
    assert takers[0] == takers[1] == Some(order[0]);
    FirstCard(deck, takers, who);
    FirstCard(deck[..n - 1], takers[1..], who);
    assert takers[1..][0] == takers[1] && takers[1..][1..] == takers[2..] == DealOrder(order[1..]);
    assert deck[..n - 1][..n - 2] == deck[..n - 2] && deck[..n - 1][n - 2] == deck[n - 2];
  }

  lemma {:induction false} NotDealt(deck: seq<Card>, order: seq<PlayerId>, who: Taker)
    requires |deck| >= 2 * |order| && (who.Some? ==> who.value !in order)
    ensures HandFrom(deck, DealOrder(order), who) == []
    decreases |order|
  {
    if order != [] {
      DealOrderStep(deck, order, who);
      assert order[0] in order && forall q :: q in order[1..] ==> q in order;
      NotDealt(deck[..|deck| - 2], order[1..], who);
    }
  }

  /** The deal gives everybody the cards at the places of the deal order. */
  lemma {:induction false} DealFlows(players: map<PlayerId, Seat>, deck: seq<Card>, order: seq<PlayerId>, q: PlayerId)
    requires NoDup(order) && AllSeated(players, order) && |deck| >= 2 * |order| && q in order
    ensures q in players && DealHands(players, deck, order).0[q].hand == HandFrom(deck, DealOrder(order), Some(q))
    decreases |order|
  {
    DealStep(players, deck, order);
    DealOrderStep(deck, order, Some(q));
    hide DealHands, HandFrom;
    var next := players[order[0] := players[order[0]].(hand := DealtTo(deck, 0))];
    if q == order[0] {
      DealLeavesOthers(next, deck[..|deck| - 2], order[1..], q);
      NotDealt(deck[..|deck| - 2], order[1..], Some(q));
    } else {
      assert q in order[1..];
      DealFlows(next, deck[..|deck| - 2], order[1..], q);
    }
  }

  // ----- What each call takes -----

  /** Who takes cards in a call: at the deal everybody and the dealer, then whoever draws when the deck shrinks. */
  function TakenBy(g: Game, move: Move, h: Game): seq<Taker> {
    match move
    case PlayerAction(p, Bet(_)) =>
      if g.phase.Betting? && h.phase.Playing? then DealOrder(g.turnOrder) + [None, None] else []
    case PlayerAction(p, _) => if |h.deck| < |g.deck| then [Some(p)] else []
    case DealerDraw => if |h.deck| < |g.deck| then [None] else []
    case _ => []
  }

  /** The deck is what is left of the shoe, and the hand of `who` what it took. */
  ghost predicate Flows(g: Game, shoe: seq<Card>, takers: seq<Taker>, p: PlayerId) {
    && |takers| <= |shoe|
    && g.deck == shoe[..|shoe| - |takers|]
    && g.dealerHand == HandFrom(shoe, takers, None)
    && (p in g.players ==> g.players[p].hand == HandFrom(shoe, takers, Some(p)))
    && (g.phase.Waiting? || g.phase.Betting? ==> takers == [])
  }

  /** The dealer takes the two cards after everybody's. */
  lemma TwoForTheDealer(deck: seq<Card>, takers: seq<Taker>, who: Taker)
    requires |takers| + 2 <= |deck|
    ensures HandFrom(deck, takers + [None, None], who)
         == HandFrom(deck, takers, who)
            + if who == None then [deck[|deck| - 1 - |takers|], deck[|deck| - 2 - |takers|]] else []
  {
    hide HandFrom;
    assert takers + [None, None] == (takers + [None]) + [None];
    OneMoreCard(deck, takers, None, who);
    OneMoreCard(deck, takers + [None], None, who);
  }

  lemma DealtCards(g: Game)
    requires Members(g) && !DealCards(g).crashed && !g.crashed
    ensures var h, deck, n := DealCards(g), g.deck, |g.deck| - 2 * |g.turnOrder|;
      && n >= 2 && h.phase.Playing? && h.deck == deck[..n - 2] && h.dealerHand == [deck[n - 1], deck[n - 2]]
      && h.players == DealHands(g.players, g.deck, g.turnOrder).0
      && forall q :: q in h.players <==> q in g.turnOrder
  {
    DealRest(g.players, g.deck, g.turnOrder);
    hide DealHands;
  }

  lemma DealFlow(g: Game, p: PlayerId)
    requires g.phase.Betting? && Members(g) && g.dealerHand == [] && !DealCards(g).crashed && !g.crashed
    ensures Flows(DealCards(g), g.deck, DealOrder(g.turnOrder) + [None, None], p)
    ensures DealCards(g).phase.Playing?
  {
    var order, deck := g.turnOrder, g.deck;
    DealtCards(g);
    hide DealCards, DealHands, HandFrom, DealOrder, NoDup;
    TwoForTheDealer(deck, DealOrder(order), None);
    TwoForTheDealer(deck, DealOrder(order), Some(p));
    NotDealt(deck, order, None);
    if p in g.players {
      DealFlows(g.players, deck, order, p);
    }
  }

  lemma BetFlows(g: Game, shoe: seq<Card>, takers: seq<Taker>, p: PlayerId, q: PlayerId, amount: int)
    requires Flows(g, shoe, takers, p) && Members(g) && q in g.players && !g.crashed && !Act(g, q, Bet(amount)).crashed
    ensures var h := Act(g, q, Bet(amount));
      Flows(h, shoe, takers + TakenBy(g, PlayerAction(q, Bet(amount)), h), p)
  {
    hide DealCards, HandFrom, DealOrder;
    var h := Act(g, q, Bet(amount));
    if BetFits(g, q, amount) {
      var placed := PlaceBet(g, q, amount);
      assert shoe[..|shoe|] == shoe;
      if AllBet(placed) {
        NothingTaken(shoe);
        DealFlow(placed, p);
      }
    }
    if !(g.phase.Betting? && h.phase.Playing?) {
      assert takers + [] == takers;
    } else {
      assert takers + (DealOrder(g.turnOrder) + [None, None]) == DealOrder(g.turnOrder) + [None, None];
    }
  }

  lemma NothingTaken(shoe: seq<Card>)
    ensures HandFrom(shoe, [], None) == []
  {
  }

  /** The next card of the shoe goes to the end of the taker's hand. */
  lemma TakeFlows(g: Game, shoe: seq<Card>, takers: seq<Taker>, p: PlayerId, who: Taker, h: Game)
    requires Flows(g, shoe, takers, p) && g.deck != [] && !g.phase.Waiting? && !g.phase.Betting?
    requires h.deck == g.deck[..|g.deck| - 1] && h.players.Keys == g.players.Keys
    requires h.dealerHand == g.dealerHand + if who.None? then [g.deck[|g.deck| - 1]] else []
    requires p in g.players ==>
      h.players[p].hand == g.players[p].hand + if who == Some(p) then [g.deck[|g.deck| - 1]] else []
    requires !h.phase.Waiting? && !h.phase.Betting?
    ensures Flows(h, shoe, takers + [who], p)
  {
    hide HandFrom;
    OneMoreCard(shoe, takers, who, None);
    OneMoreCard(shoe, takers, who, Some(p));
  }

  /** A call that takes no card. */
  lemma NoTakeFlows(g: Game, shoe: seq<Card>, takers: seq<Taker>, p: PlayerId, h: Game)
    requires Flows(g, shoe, takers, p)
    requires h.deck == g.deck && h.dealerHand == g.dealerHand
    requires p in h.players ==> p in g.players && h.players[p].hand == g.players[p].hand
    requires h.phase.Waiting? || h.phase.Betting? ==> g.phase.Waiting? || g.phase.Betting?
    ensures Flows(h, shoe, takers + [], p)
  {
    assert takers + [] == takers;
  }

  lemma HitFlows(g: Game, shoe: seq<Card>, takers: seq<Taker>, p: PlayerId, q: PlayerId)
    requires Flows(g, shoe, takers, p) && q in g.players && !g.crashed && !Act(g, q, Hit).crashed
    ensures var h := Act(g, q, Hit); Flows(h, shoe, takers + TakenBy(g, PlayerAction(q, Hit), h), p)
  {
    hide AdvanceTurn, Value, HandFrom, Flows;
    var h := Act(g, q, Hit);
    if g.phase.Playing? && IsCurrent(g, q) && g.deck != [] {
      HitIsOneChange(g, q);
      HitSeatHand(g.players[q], g.deck[|g.deck| - 1]);
      AdvanceStops(HitTable(g, q));
      TakeFlows(g, shoe, takers, p, Some(q), h);
    } else {
      NoTakeFlows(g, shoe, takers, p, h);
    }
  }

  lemma DoubleFlows(g: Game, shoe: seq<Card>, takers: seq<Taker>, p: PlayerId, q: PlayerId)
    requires Flows(g, shoe, takers, p) && q in g.players && !g.crashed && !Act(g, q, Double).crashed
    ensures var h := Act(g, q, Double); Flows(h, shoe, takers + TakenBy(g, PlayerAction(q, Double), h), p)
  {
    hide AdvanceTurn, Value, HandFrom, Flows;
    var h := Act(g, q, Double);
    if DoubleFits(g, q) && g.deck != [] {
      DoubleIsOneChange(g, q);
      AdvanceStops(DoubledTable(g, q));
      TakeFlows(g, shoe, takers, p, Some(q), h);
    } else {
      NoTakeFlows(g, shoe, takers, p, h);
    }
  }

  lemma StandFlows(g: Game, shoe: seq<Card>, takers: seq<Taker>, p: PlayerId, q: PlayerId)
    requires Flows(g, shoe, takers, p) && q in g.players && !g.crashed
    ensures var h := Act(g, q, Stand); Flows(h, shoe, takers + TakenBy(g, PlayerAction(q, Stand), h), p)
  {
    hide AdvanceTurn, Value, HandFrom, Flows;
    AdvanceStops(SetSeat(g, q, g.players[q].(stood := true)));
    NoTakeFlows(g, shoe, takers, p, Act(g, q, Stand));
  }

  lemma UnknownFlows(g: Game, shoe: seq<Card>, takers: seq<Taker>, p: PlayerId, q: PlayerId)
    requires Flows(g, shoe, takers, p)
    ensures var h := Act(g, q, Unknown); Flows(h, shoe, takers + TakenBy(g, PlayerAction(q, Unknown), h), p)
  {
    hide Flows;
    NoTakeFlows(g, shoe, takers, p, Act(g, q, Unknown));
  }

  lemma DrawFlows(g: Game, shoe: seq<Card>, takers: seq<Taker>, p: PlayerId, cap: nat)
    requires TableOk(g, cap) && Flows(g, shoe, takers, p) && g.drawPending && !g.crashed && !Draw(g).crashed
    ensures Flows(Draw(g), shoe, takers + TakenBy(g, DealerDraw, Draw(g)), p)
  {
    DrawPays(g, cap);
    DrawnCard(g, cap);
    hide TableOk, Draw, HandFrom, Value, Flows;
    if Value(g.dealerHand) < 17 {
      TakeFlows(g, shoe, takers, p, None, Draw(g));
    } else {
      NoTakeFlows(g, shoe, takers, p, Draw(g));
    }
  }

  lemma DrawnCard(g: Game, cap: nat)
    requires TableOk(g, cap) && g.drawPending && !g.crashed && !Draw(g).crashed
    ensures var h := Draw(g);
      && g.phase.Dealer? && (h.phase.Dealer? || h.phase.Ended?)
      && if Value(g.dealerHand) < 17
         then g.deck != [] && h.deck == g.deck[..|g.deck| - 1] && h.dealerHand == g.dealerHand + [g.deck[|g.deck| - 1]]
         else h.deck == g.deck
  {
    hide Value, Weigh, SettleAll, CardsOk, ChipsOk, CrowdOk, SeatsOk, TurnOk;
  }

  lemma JoinFlows(g: Game, shoe: seq<Card>, takers: seq<Taker>, p: PlayerId, q: PlayerId)
    requires Flows(g, shoe, takers, p) && g.phase.Waiting?
    ensures Flows(Join(g, q), shoe, takers + [], p)
  {
    assert takers + [] == takers;
  }

  lemma LeaveKeepsDeck(g: Game, p: PlayerId)
    ensures Leave(g, p).deck == g.deck
    ensures Leave(g, p).phase.Betting? ==> g.phase.Betting?
  {
    hide Value, Weigh, IndexOf, Departure;
    AdvanceStops(Unseat(g, p));
  }

  /** No call moves a card except from the top of the shoe to the end of the taker's hand. */
  lemma MoveFlows(g: Game, shoe: seq<Card>, takers: seq<Taker>, p: PlayerId, move: Move, cap: nat)
    requires TableOk(g, cap) && !g.crashed && Allowed(g, move, cap) && !Play(g, move).crashed
    requires !move.GameStart? && Flows(g, shoe, takers, p)
    ensures Flows(Play(g, move), shoe, takers + TakenBy(g, move, Play(g, move)), p)
  {
    hide TableOk, Act, Leave, Draw, Flows, HandFrom;
    match move
    case PlayerJoin(q) => JoinFlows(g, shoe, takers, p, q);
    case PlayerLeave(q) =>
      LeaveMovesNothing(g, q);
      LeaveKeepsDeck(g, q);
      NoTakeFlows(g, shoe, takers, p, Leave(g, q));
    case DealerDraw => DrawFlows(g, shoe, takers, p, cap);
    case PlayerAction(q, action) =>
      match action {
        case Bet(amount) =>
          TablePhases(g, cap, q);
          BetFlows(g, shoe, takers, p, q, amount);
        case Hit => HitFlows(g, shoe, takers, p, q);
        case Stand => StandFlows(g, shoe, takers, p, q);
        case Double => DoubleFlows(g, shoe, takers, p, q);
        case Unknown => UnknownFlows(g, shoe, takers, p, q);
      }
  }

  // ----- Over runs -----

  /** The shoe that the start of the game shuffled. */
  ghost function ShoeOf(maxPlayers: int, turnIndex: Option<int>, steps: seq<Step>): seq<Card>
    decreases |steps|
  {
    if steps == [] then []
    else
      var front, last := steps[..|steps| - 1], steps[|steps| - 1];
      var r := Run(maxPlayers, turnIndex, front);
      if Live(r) && MoveOf(r, last).Some? && MoveOf(r, last).value.GameStart?
      then Shuffled(Shoe(), MoveOf(r, last).value.clock)
      else ShoeOf(maxPlayers, turnIndex, front)
  }

  /** Who took the cards of the shoe so far, from the top. */
  ghost function TakersOf(maxPlayers: int, turnIndex: Option<int>, steps: seq<Step>): seq<Taker>
    decreases |steps|
  {
    if steps == [] then []
    else
      var front, last := steps[..|steps| - 1], steps[|steps| - 1];
      var r := Run(maxPlayers, turnIndex, front);
      TakersOf(maxPlayers, turnIndex, front) +
      if Live(r) && MoveOf(r, last).Some? then TakenBy(r.game, MoveOf(r, last).value, Next(r, last).game) else []
  }

  lemma StartFlows(g: Game, shoe: seq<Card>, takers: seq<Taker>, p: PlayerId, clock: seq<int>)
    requires Flows(g, shoe, takers, p) && g.phase.Waiting?
    ensures Flows(Start(g, clock), Shuffled(Shoe(), clock), takers, p)
  {
    hide Shoe, Shuffled;
    var all := Shuffled(Shoe(), clock);
    assert all[..|all|] == all;
  }

  lemma StepFlows(r: Room, shoe: seq<Card>, takers: seq<Taker>, p: PlayerId, step: Step)
    requires RoomOk(r) && Live(r) && Live(Next(r, step)) && Flows(r.game, shoe, takers, p)
    ensures var move, h := MoveOf(r, step), Next(r, step).game;
      if move.None? then h == r.game
      else if move.value.GameStart? then Flows(h, Shuffled(Shoe(), move.value.clock), takers, p)
      else Flows(h, shoe, takers + TakenBy(r.game, move.value, h), p)
  {
    hide TableOk, Next, Act, Leave, Draw, Start, Join, Flows, Shuffled, Shoe, TakenBy;
    if step.Deliver? && step.msg.MsgShutdown? {
      ShutdownIsNotLive(r);
    } else {
      StepIsMove(r, step);
      var move := MoveOf(r, step);
      if move.Some? {
        MoveAllowed(r, step);
        if move.value.GameStart? {
          StartFlows(r.game, shoe, takers, p, move.value.clock);
        } else {
          MoveFlows(r.game, shoe, takers, p, move.value, Capacity(r.maxPlayers));
        }
      }
    }
  }

  lemma {:induction false} FlowsInRuns(maxPlayers: int, turnIndex: Option<int>, steps: seq<Step>, p: PlayerId)
    requires Live(Run(maxPlayers, turnIndex, steps))
    ensures Flows(Run(maxPlayers, turnIndex, steps).game, ShoeOf(maxPlayers, turnIndex, steps),
                  TakersOf(maxPlayers, turnIndex, steps), p)
    decreases |steps|
  {
    hide Next, RoomOk, Live, RunFrom, Flows, MoveOf, TakenBy, Shuffled, Shoe;
    if steps == [] {
      NothingFlowsYet(maxPlayers, turnIndex, p);
    } else {
      var front, last := steps[..|steps| - 1], steps[|steps| - 1];
      var r := Run(maxPlayers, turnIndex, front);
      RunStep(maxPlayers, turnIndex, steps);
      RunOk(maxPlayers, turnIndex, front);
      if !Live(r) {
        DeadStaysDead(r, last);
      }
      FlowsInRuns(maxPlayers, turnIndex, front, p);
      StepFlows(r, ShoeOf(maxPlayers, turnIndex, front), TakersOf(maxPlayers, turnIndex, front), p, last);
      var takers := TakersOf(maxPlayers, turnIndex, front);
      assert takers + [] == takers;
      if MoveOf(r, last).Some? && MoveOf(r, last).value.GameStart? {
        StartTakesNothing(r.game, MoveOf(r, last).value, Next(r, last).game);
      }
    }
  }

  lemma StartTakesNothing(g: Game, move: Move, h: Game)
    requires move.GameStart?
    ensures TakenBy(g, move, h) == []
  {
  }

  lemma NothingFlowsYet(maxPlayers: int, turnIndex: Option<int>, p: PlayerId)
    ensures Flows(Run(maxPlayers, turnIndex, []).game, [], [], p)
  {
  }

  /**
    Every card of a live run: the deck is the shuffled shoe without as many cards from its top as
    were taken; every seated player's hand, and the dealer's, is the shoe's cards at the places
    where that player or the dealer took one, in order.
  */
  lemma HandsFollowShoe(maxPlayers: int, turnIndex: Option<int>, steps: seq<Step>, p: PlayerId)
    requires Live(Run(maxPlayers, turnIndex, steps))
    ensures var g := Run(maxPlayers, turnIndex, steps).game;
      var shoe, takers := ShoeOf(maxPlayers, turnIndex, steps), TakersOf(maxPlayers, turnIndex, steps);
      && |takers| <= |shoe|
      && g.deck == shoe[..|shoe| - |takers|]
      && g.dealerHand == HandFrom(shoe, takers, None)
      && (p in g.players ==> g.players[p].hand == HandFrom(shoe, takers, Some(p)))
  {
    hide Run, ShoeOf, TakersOf, HandFrom;
    FlowsInRuns(maxPlayers, turnIndex, steps, p);
  }
}
