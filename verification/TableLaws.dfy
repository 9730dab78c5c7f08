/** Every call that the room lets through keeps the table invariant. */
module TableLaws {
  import opened Prelude
  import opened Cards
  import opened Blackjack
  import opened Tally
  import opened TableInvariants
  import opened TurnLaws
  import opened CardLaws
  import opened DealerLaws
  import opened ChipLaws

  /** A table whose current player is about to be passed. */
  ghost predicate ReadyToAdvance(g: Game, cap: nat) {
    && g.phase.Playing?
    && Members(g)
    && SeatsOk(g)
    && AheadOk(g, g.currentPlayerIndex + 1)
    && DealerOk(g)
    && CardsOk(g)
    && CrowdOk(g, cap)
    && ChipsOk(g)
  }

  lemma KeepsAdvance(g: Game, cap: nat)
    requires ReadyToAdvance(g, cap)
    ensures TableOk(AdvanceTurn(g), cap)
  {
    AdvanceStops(g);
    AdvanceKeepsTurn(g);
    var r := AdvanceTurn(g);
    forall m: Measure ensures Pile(r, m) == ShoeWeight(m) {
      assert Pile(r, m) == Pile(g, m);
    }
    DealerStarts(g.dealerHand);
    ScheduleTakesSlot(g);
    ChipsSame(g, r);
  }

  lemma KeepsJoin(g: Game, p: PlayerId, cap: nat)
    requires TableOk(g, cap) && Allowed(g, PlayerJoin(p), cap)
    ensures TableOk(Join(g, p), cap)
  {
    var r := Join(g, p);
    assert forall q :: q in r.turnOrder <==> q in g.turnOrder || q == p;
    NoDupLength(g.turnOrder, g.players.Keys);
    ChipsJoin(g, p);
  }

  lemma UnseatKeepsMembers(g: Game, p: PlayerId)
    requires Members(g) && p in g.players
    ensures Members(Unseat(g, p))
    ensures |Unseat(g, p).turnOrder| == |g.turnOrder| - 1
  {
    var r := Unseat(g, p);
    var i := IndexOf(g.turnOrder, p);
    assert i >= 0 && r.turnOrder == Without(g.turnOrder, i) && r.players == g.players - {p};
    WithoutNoDup(g.turnOrder, i);
    forall q ensures q in r.turnOrder <==> q in r.players {
      assert q in r.turnOrder <==> q in g.turnOrder && q != p;
    }
  }

  lemma UnseatKeepsCards(g: Game, p: PlayerId)
    requires Members(g) && p in g.players && CardsOk(g) && SeatsOk(g)
    ensures CardsOk(Unseat(g, p))
  {
    var r := Unseat(g, p);
    if !g.phase.Waiting? {
      forall m: Measure ensures Pile(r, m) == ShoeWeight(m) {
        PileUnseat(g, m, p);
      }
    }
  }

  lemma UnseatKeepsCrowd(g: Game, p: PlayerId, cap: nat)
    requires Members(g) && p in g.players && CrowdOk(g, cap) && SeatsOk(g)
    ensures CrowdOk(Unseat(g, p), cap)
  {
    WeighConcat(LowTotal, g.hist.discard, g.players[p].hand);
    UnseatKeepsMembers(g, p);
    assert SeatOk(g.phase, g.players[p]);
  }

  lemma KeepsUnseat(g: Game, p: PlayerId, cap: nat)
    requires TableOk(g, cap) && p in g.players
    ensures var r := Unseat(g, p);
      && Members(r) && SeatsOk(r) && DealerOk(r) && CardsOk(r) && CrowdOk(r, cap) && ChipsOk(r)
  {
    UnseatKeepsMembers(g, p);
    ChipsUnseat(g, p);
    UnseatKeepsCards(g, p);
    UnseatKeepsCrowd(g, p, cap);
  }

  /** After a leave during play everyone beyond the next position is still untouched. */
  lemma UnseatKeepsAhead(g: Game, p: PlayerId)
    requires Members(g) && TurnOk(g) && g.phase.Playing? && p in g.players
    ensures var r := Unseat(g, p); AheadOk(r, r.currentPlayerIndex + 1)
  {
    hide Weigh, Sum, Value, AdvanceTurn, IndexOf;
    var r := Unseat(g, p);
    var i := IndexOf(g.turnOrder, p);
    assert g.turnOrder[i] == p;
    assert r.turnOrder == Without(g.turnOrder, i) && r.players == g.players - {p};
    forall j | r.currentPlayerIndex + 1 <= j < |r.turnOrder|
      ensures r.turnOrder[j] in r.players
      ensures Untouched(r.players[r.turnOrder[j]]) || DoubleOutOfTurn(r, r.turnOrder[j])
    {
      var k := if j < i then j else j + 1;
      assert r.turnOrder[j] == g.turnOrder[k] && k != i;
    }
  }

  lemma KeepsLeave(g: Game, p: PlayerId, cap: nat)
    requires TableOk(g, cap) && Allowed(g, PlayerLeave(p), cap)
    ensures TableOk(Leave(g, p), cap)
  {
    hide AdvanceTurn, Members, SeatsOk, DealerOk, CardsOk, CrowdOk, ChipsOk, AheadOk;
    KeepsUnseat(g, p, cap);
    var r := Unseat(g, p);
    if r.phase.Playing? && |r.turnOrder| > 0 {
      UnseatKeepsAhead(g, p);
      KeepsAdvance(r, cap);
    }
  }

  lemma KeepsStart(g: Game, clock: seq<int>, cap: nat)
    requires TableOk(g, cap) && Allowed(g, GameStart(clock), cap)
    ensures TableOk(Start(g, clock), cap)
  {
    var r := Start(g, clock);
    forall m: Measure ensures Pile(r, m) == ShoeWeight(m) {
      PileStart(g, m, clock);
    }
    ChipsSame(g, r);
  }

  lemma KeepsPlaceBet(g: Game, p: PlayerId, amount: int, cap: nat)
    requires TableOk(g, cap) && g.phase.Betting? && p in g.players
    requires MIN_BET <= amount <= g.players[p].chips
    ensures TableOk(PlaceBet(g, p, amount), cap)
  {
    var r := PlaceBet(g, p, amount);
    ChipsSeat(g, p, r.players[p]);
    forall m: Measure ensures Pile(r, m) == ShoeWeight(m) {
      PileSameHand(g, m, p, r.players[p]);
    }
  }

  lemma KeepsDeal(g: Game, cap: nat)
    requires TableOk(g, cap) && g.phase.Betting? && AllBet(g)
    requires !g.crashed && !DealCards(g).crashed
    ensures TableOk(DealCards(g), cap)
  {
    hide Weigh, Sum, Value, DealHands;
    var r := DealCards(g);
    forall p | p in r.players
      ensures r.players[p] == g.players[p].(hand := r.players[p].hand)
      ensures |r.players[p].hand| == 2 && p in g.turnOrder
    {
      var k :| 0 <= k < |g.turnOrder| && g.turnOrder[k] == p;
      DealsInOrder(g.players, g.deck, g.turnOrder, k);
    }
    forall p | p in r.players ensures SeatOk(Playing, r.players[p]) && Untouched(r.players[p]) {
      TwoCards(r.players[p].hand);
      assert SeatOk(Betting, g.players[p]);
    }
    forall m: Measure ensures Pile(r, m) == ShoeWeight(m) {
      PileDeal(g, m);
    }
    ChipsSame(g, r);
  }

  lemma KeepsBet(g: Game, p: PlayerId, amount: int, cap: nat)
    requires TableOk(g, cap) && p in g.players && !g.crashed && !HandleBet(g, p, amount).crashed
    ensures TableOk(HandleBet(g, p, amount), cap)
  {
    if g.phase.Betting? && MIN_BET <= amount <= MAX_BET && amount <= g.players[p].chips {
      KeepsPlaceBet(g, p, amount, cap);
      if AllBet(PlaceBet(g, p, amount)) {
        KeepsDeal(PlaceBet(g, p, amount), cap);
      }
    } else {
      KeepsNotice(g, HandleBet(g, p, amount), cap);
    }
  }

  /** Sending something changes no other part of the table. */
  lemma KeepsNotice(g: Game, r: Game, cap: nat)
    requires TableOk(g, cap) && r == g.(outbox := r.outbox)
    ensures TableOk(r, cap)
  {
    if !g.phase.Waiting? {
      forall m: Measure ensures Pile(r, m) == ShoeWeight(m) {
        assert Pile(r, m) == Pile(g, m);
      }
    }
  }

  /**
    A player's seat after a card and a decision: what has to hold of it for the table to be
    consistent, before the turn is advanced.
  */
  lemma KeepsSeatChange(g: Game, p: PlayerId, seat: Seat, r: Game, cap: nat)
    requires TableOk(g, cap) && g.phase.Playing? && p in g.players
    requires SeatOk(Playing, seat)
    requires if g.deck != [] && seat.hand == g.players[p].hand + [g.deck[|g.deck| - 1]]
             then r.deck == g.deck[..|g.deck| - 1]
             else r.deck == g.deck && seat.hand == g.players[p].hand
    requires seat.chips + r.pot == g.players[p].chips + g.pot
    requires r.pot - seat.bet == g.pot - g.players[p].bet
    requires r == g.(deck := r.deck, players := g.players[p := seat], pot := r.pot)
    ensures Members(r) && SeatsOk(r) && DealerOk(r) && CardsOk(r) && CrowdOk(r, cap) && ChipsOk(r)
  {
    hide Weigh, Sum, Value, AdvanceTurn;
    ChipsSeat(g, p, seat);
    forall m: Measure ensures Pile(r, m) == ShoeWeight(m) {
      if r.deck == g.deck && seat.hand == g.players[p].hand {
        PileSameHand(g, m, p, seat);
        assert r.players == g.players[p := seat];
        assert Pile(r, m) == Pile(g.(players := g.players[p := seat]), m);
      } else {
        PileTake(g, m, p, seat);
        assert Pile(r, m) == Pile(g.(deck := g.deck[..|g.deck| - 1], players := g.players[p := seat]), m);
      }
    }
  }

  /** Changing the seat of a player who is current, or who doubles out of turn, leaves those ahead as they were. */
  lemma SeatChangeKeepsAhead(g: Game, p: PlayerId, seat: Seat, r: Game)
    requires Members(g) && TurnOk(g) && g.phase.Playing? && p in g.players
    requires IsCurrent(g, p) || DoubleOutOfTurn(g, p)
    requires r.players == g.players[p := seat] && r.turnOrder == g.turnOrder
    requires r.turnIndex == g.turnIndex && r.currentPlayerIndex == g.currentPlayerIndex
    ensures AheadOk(r, r.currentPlayerIndex + 1)
  {
    assert g.turnOrder != [] by { assert p in g.turnOrder; }
    assert AheadOk(g, g.currentPlayerIndex + 1);
  }

  lemma CurrentIsActive(g: Game, p: PlayerId)
    requires Members(g) && TurnOk(g) && g.phase.Playing? && IsCurrent(g, p)
    ensures p in g.players && Active(g.players[p])
  {
  }

  /** The seat after a hit: one more card, and the decision its value makes. */
  function HitSeat(seat: Seat, c: Card): Seat {
    var hand := seat.hand + [c];
    if Value(hand) > 21 then seat.(hand := hand, busted := true)
    else if Value(hand) == 21 then seat.(hand := hand, stood := true)
    else seat.(hand := hand)
  }

  function HitTable(g: Game, p: PlayerId): Game
    requires p in g.players && g.deck != []
  {
    var n := |g.deck| - 1;
    g.(deck := g.deck[..n], players := g.players[p := HitSeat(g.players[p], g.deck[n])])
  }

  lemma HitIsOneChange(g: Game, p: PlayerId)
    requires p in g.players && g.phase.Playing? && IsCurrent(g, p) && g.deck != []
    ensures var r := HitTable(g, p);
      HandleHit(g, p) == if Value(r.players[p].hand) >= 21 then AdvanceTurn(r) else r
  {
    hide AdvanceTurn, Value;
    var taken := TakeCard(g, p);
    var seat := HitSeat(g.players[p], g.deck[|g.deck| - 1]);
    assert SetSeat(taken, p, seat).players == HitTable(g, p).players;
  }

  lemma HitSeatOk(seat: Seat, c: Card)
    requires SeatOk(Playing, seat) && Active(seat)
    ensures SeatOk(Playing, HitSeat(seat, c))
    ensures Value(HitSeat(seat, c).hand) < 21 ==> Active(HitSeat(seat, c))
  {
    hide Weigh, Aces;
    PlayerDraws(seat.hand, c);
  }

  lemma KeepsHit(g: Game, p: PlayerId, cap: nat)
    requires TableOk(g, cap) && p in g.players && !HandleHit(g, p).crashed
    ensures TableOk(HandleHit(g, p), cap)
  {
    hide Weigh, Sum, Value, AdvanceTurn, DealerOk, CardsOk, CrowdOk, ChipsOk, SeatOk, HitSeat;
    if g.phase.Playing? && IsCurrent(g, p) && g.deck != [] {
      CurrentIsActive(g, p);
      var c := g.deck[|g.deck| - 1];
      var seat := HitSeat(g.players[p], c);
      var r := HitTable(g, p);
      HitSeatOk(g.players[p], c);
      HitIsOneChange(g, p);
      HitSeatHand(g.players[p], c);
      KeepsSeatChange(g, p, seat, r, cap);
      SeatChangeKeepsAhead(g, p, seat, r);
      if Value(seat.hand) >= 21 {
        KeepsAdvance(r, cap);
      }
    } else {
      KeepsNotice(g, HandleHit(g, p), cap);
    }
  }

  lemma HitSeatHand(seat: Seat, c: Card)
    ensures HitSeat(seat, c).hand == seat.hand + [c]
    ensures HitSeat(seat, c).chips == seat.chips && HitSeat(seat, c).bet == seat.bet
  {
    hide Value;
  }

  lemma KeepsStand(g: Game, p: PlayerId, cap: nat)
    requires TableOk(g, cap) && p in g.players && !HandleStand(g, p).crashed
    ensures TableOk(HandleStand(g, p), cap)
  {
    hide Weigh, Sum, Value, AdvanceTurn, DealerOk, CardsOk, CrowdOk, ChipsOk;
    if g.phase.Playing? && IsCurrent(g, p) {
      CurrentIsActive(g, p);
      var seat := g.players[p].(stood := true);
      var r := SetSeat(g, p, seat);
      KeepsSeatChange(g, p, seat, r, cap);
      SeatChangeKeepsAhead(g, p, seat, r);
      KeepsAdvance(r, cap);
    } else {
      KeepsNotice(g, HandleStand(g, p), cap);
    }
  }

  lemma KeepsDouble(g: Game, p: PlayerId, cap: nat)
    requires TableOk(g, cap) && p in g.players && !HandleDouble(g, p).crashed
    ensures TableOk(HandleDouble(g, p), cap)
  {
    if g.phase.Playing? && DoubleTurn(g, p) && |g.players[p].hand| == 2 && g.players[p].chips >= g.players[p].bet
       && g.deck != [] {
      KeepsDoubleDown(g, p, cap);
    } else {
      KeepsNotice(g, HandleDouble(g, p), cap);
    }
  }

  /** The seat after doubling: twice the bet, one more card, stood. */
  function DoubledSeat(seat: Seat, c: Card): Seat {
    var hand := seat.hand + [c];
    seat.(hand := hand, chips := seat.chips - seat.bet, bet := seat.bet * 2,
          stood := true, busted := seat.busted || Value(hand) > 21)
  }

  function DoubledTable(g: Game, p: PlayerId): Game
    requires p in g.players && g.deck != []
  {
    var n := |g.deck| - 1;
    g.(deck := g.deck[..n], players := g.players[p := DoubledSeat(g.players[p], g.deck[n])],
       pot := g.pot + g.players[p].bet)
  }

  lemma DoubleIsOneChange(g: Game, p: PlayerId)
    requires p in g.players && g.phase.Playing? && DoubleTurn(g, p)
    requires |g.players[p].hand| == 2 && g.players[p].chips >= g.players[p].bet && g.deck != []
    ensures HandleDouble(g, p) == AdvanceTurn(DoubledTable(g, p))
  {
    hide AdvanceTurn, Value;
    var taken := TakeCard(DoubleBet(g, p), p);
    var seat := DoubledSeat(g.players[p], g.deck[|g.deck| - 1]);
    assert SetSeat(taken, p, seat).players == DoubledTable(g, p).players;
  }

  lemma KeepsDoubleDown(g: Game, p: PlayerId, cap: nat)
    requires TableOk(g, cap) && p in g.players && g.phase.Playing? && DoubleTurn(g, p)
    requires |g.players[p].hand| == 2 && g.players[p].chips >= g.players[p].bet && g.deck != []
    ensures TableOk(HandleDouble(g, p), cap)
  {
    hide Weigh, Sum, Value, AdvanceTurn, DealerOk, CardsOk, CrowdOk, ChipsOk;
    assert g.turnOrder != [] by { assert p in g.turnOrder; }
    var c := g.deck[|g.deck| - 1];
    var seat := DoubledSeat(g.players[p], c);
    var r := DoubledTable(g, p);
    DoubledSeatOk(g.players[p], c);
    DoubleIsOneChange(g, p);
    KeepsSeatChange(g, p, seat, r, cap);
    SeatChangeKeepsAhead(g, p, seat, r);
    KeepsAdvance(r, cap);
  }

  lemma DoubledSeatOk(seat: Seat, c: Card)
    requires SeatOk(Playing, seat) && |seat.hand| == 2 && seat.chips >= seat.bet
    ensures SeatOk(Playing, DoubledSeat(seat, c))
  {
    PlayerDraws(seat.hand, c);
    TwoCards(seat.hand);
  }

  lemma ResolveKeepsCards(g: Game, r: Game)
    requires CardsOk(g) && Members(g) && !g.phase.Waiting? && !r.phase.Waiting?
    requires r.deck == g.deck && r.dealerHand == g.dealerHand && r.turnOrder == g.turnOrder
    requires r.hist.discard == g.hist.discard
    requires forall p :: p in g.players ==> p in r.players && r.players[p].hand == g.players[p].hand
    ensures CardsOk(r)
  {
    forall m: Measure ensures Pile(r, m) == ShoeWeight(m) {
      SumFrame(Hands(m), g.players, r.players, g.turnOrder);
      assert Pile(r, m) == Pile(g, m);
    }
  }

  lemma ResolveSettles(g: Game)
    requires Members(g) && FlagsRight(g.players)
    ensures var r := ResolveGame(g);
      && r.players.Keys == g.players.Keys
      && (forall p :: p in g.players ==> r.players[p] == RulesSeat(g.players[p], g.dealerHand))
      && r == g.(players := r.players, phase := Ended, outbox := r.outbox, hist := g.hist.(paid := r.hist.paid))
      && r.hist.paid - g.hist.paid
           == Sum(Chips, r.players, g.turnOrder) - Sum(Chips, g.players, g.turnOrder)
  {
    SettledSeats(g.players, g.turnOrder, g.dealerHand);
    SettledPaid(g.players, g.turnOrder, Value(g.dealerHand));
  }

  lemma ResolveKeepsSeats(g: Game, r: Game)
    requires SeatsOk(g) && g.phase.Dealer? && r.phase.Ended?
    requires r.players.Keys == g.players.Keys
    requires forall p :: p in g.players ==> r.players[p] == RulesSeat(g.players[p], g.dealerHand)
    ensures SeatsOk(r)
  {
    forall p | p in r.players ensures SeatOk(Ended, r.players[p]) {
      assert SeatOk(Dealer, g.players[p]);
    }
  }

  lemma ResolveKeepsChips(g: Game, r: Game)
    requires ChipsOk(g) && Members(g) && g.phase.Dealer? && r.phase.Ended?
    requires r.players.Keys == g.players.Keys && r.turnOrder == g.turnOrder && r.pot == g.pot
    requires forall p :: p in g.players ==> r.players[p].bet == g.players[p].bet
    requires r.hist == g.hist.(paid := r.hist.paid)
    requires r.hist.paid - g.hist.paid == Sum(Chips, r.players, g.turnOrder) - Sum(Chips, g.players, g.turnOrder)
    ensures ChipsOk(r)
  {
    SumFrame(Bets, g.players, r.players, g.turnOrder);
  }

  lemma KeepsResolve(g: Game, cap: nat)
    requires TableOk(g, cap) && g.phase.Dealer? && Value(g.dealerHand) >= 17
    ensures TableOk(ResolveGame(g.(drawPending := false)), cap)
  {
    var idle := g.(drawPending := false);
    var r := ResolveGame(idle);
    ResolveSettles(idle);
    ResolveKeepsCards(g, r);
    ResolveKeepsSeats(g, r);
    ResolveKeepsChips(g, r);
    assert DealerOk(r);
  }

  lemma KeepsDraw(g: Game, cap: nat)
    requires TableOk(g, cap) && g.drawPending && !Draw(g).crashed
    ensures TableOk(Draw(g), cap)
  {
    assert g.phase.Dealer?;
    if Value(g.dealerHand) >= 17 {
      KeepsResolve(g, cap);
    } else {
      var n := |g.deck| - 1;
      DealerDraws(g.dealerHand, g.deck[n]);
      var hit := g.(dealerHand := g.dealerHand + [g.deck[n]], deck := g.deck[..n]);
      ScheduleTakesSlot(hit);
      var r := Draw(g);
      forall m: Measure ensures Pile(r, m) == ShoeWeight(m) {
        PileDraw(g, m);
        assert Pile(r, m) == Pile(hit, m);
      }
      ChipsSame(g, r);
    }
  }

  /** The table invariant is kept by every allowed call that does not throw. */
  lemma TableOkKept(g: Game, move: Move, cap: nat)
    requires TableOk(g, cap) && !g.crashed
    requires Allowed(g, move, cap)
    requires !Play(g, move).crashed
    ensures TableOk(Play(g, move), cap)
  {
    hide TableOk, AdvanceTurn, Join, Leave, Start, Draw, HandleBet, HandleHit, HandleStand, HandleDouble;
    match move
    case PlayerJoin(p) => KeepsJoin(g, p, cap);
    case PlayerLeave(p) => KeepsLeave(g, p, cap);
    case GameStart(clock) => KeepsStart(g, clock, cap);
    case DealerDraw => KeepsDraw(g, cap);
    case PlayerAction(p, action) =>
      match action {
        case Bet(amount) => KeepsBet(g, p, amount, cap);
        case Hit => KeepsHit(g, p, cap);
        case Stand => KeepsStand(g, p, cap);
        case Double => KeepsDouble(g, p, cap);
        case Unknown => KeepsNotice(g, Play(g, move), cap);
      }
  }

  // ----- The deck never runs out -----

  /**
    The most players for whom six decks suffice, weighed with aces as 1: 67 hands of at most 30 and
    the dealer's of at most 26 leave cards of the 2040.  `DeckLimit` shows that 68 are too many.
  */
  const SAFE_SEATS: nat := 67

  lemma DeckNotEmpty(g: Game, cap: nat)
    requires TableOk(g, cap) && cap <= SAFE_SEATS
    requires InPlay(g.phase) && Low(g.dealerHand) <= 26
    ensures g.deck != []
  {
    SumBounds(Hands(LowTotal), g.players, g.turnOrder, 0, 30);
    assert Pile(g, LowTotal) == 2040;
  }

  lemma DeckSizeAtDeal(g: Game, cap: nat)
    requires TableOk(g, cap) && cap <= SAFE_SEATS && g.phase.Betting?
    ensures |g.deck| >= 2 * |g.turnOrder| + 2
  {
    SumBounds(Hands(LowTotal), g.players, g.turnOrder, 0, 0);
    assert Pile(g, LowTotal) == 2040;
    LowBounds(g.deck);
  }

  lemma DealerStaysLow(g: Game)
    requires DealerOk(g) && InPlay(g.phase)
    ensures Low(g.dealerHand) <= 26
  {
    if g.phase.Playing? {
      TwoCards(g.dealerHand);
    }
  }

  lemma AdvanceNeverCrashes(g: Game)
    ensures AdvanceTurn(g).crashed == g.crashed
  {
    AdvanceStops(g);
  }

  /** A call that needs more cards than the deck holds. */
  predicate LacksCards(g: Game, move: Move) {
    match move
    case DealerDraw => Value(g.dealerHand) < 17 && g.deck == []
    case PlayerAction(p, Bet(amount)) =>
      && g.phase.Betting? && p in g.players && MIN_BET <= amount <= MAX_BET && amount <= g.players[p].chips
      && AllBet(PlaceBet(g, p, amount)) && |g.deck| < 2 * |g.turnOrder| + 2
    case PlayerAction(p, Hit) => g.phase.Playing? && IsCurrent(g, p) && g.deck == []
    case PlayerAction(p, Double) =>
      && g.phase.Playing? && DoubleTurn(g, p) && g.deck == []
      && p in g.players && |g.players[p].hand| == 2 && g.players[p].chips >= g.players[p].bet
    case _ => false
  }

  /** An allowed call throws exactly if it needs more cards than the deck holds: never for a missing seat. */
  lemma ThrowsExactly(g: Game, move: Move, cap: nat)
    requires TableOk(g, cap) && !g.crashed && Allowed(g, move, cap)
    ensures Play(g, move).crashed <==> LacksCards(g, move)
  {
    hide AdvanceTurn, Weigh, Sum, Value, DealHands, SettleAll, CardsOk, CrowdOk, ChipsOk, DealerOk, SeatsOk, TurnOk;
    forall h: Game ensures AdvanceTurn(h).crashed == h.crashed {
      AdvanceNeverCrashes(h);
    }
  }

  /** With at most 67 seats no allowed call throws: no pop finds the deck empty and no seat is missing. */
  lemma NeverCrashes(g: Game, move: Move, cap: nat)
    requires TableOk(g, cap) && !g.crashed && cap <= SAFE_SEATS
    requires Allowed(g, move, cap)
    ensures !Play(g, move).crashed
  {
    hide AdvanceTurn, Weigh, Sum, Value, DealHands, SettleAll, CardsOk, CrowdOk, ChipsOk;
    match move
    case PlayerJoin(p) =>
    case PlayerLeave(p) => AdvanceNeverCrashes(Unseat(g, p));
    case GameStart(clock) =>
    case DealerDraw =>
      DealerStaysLow(g);
      DeckNotEmpty(g, cap);
    case PlayerAction(p, action) =>
      if g.phase.Betting? {
        if action.Bet? && MIN_BET <= action.amount <= g.players[p].chips {
          KeepsPlaceBet(g, p, action.amount, cap);
          DeckSizeAtDeal(PlaceBet(g, p, action.amount), cap);
        }
      } else {
        DealerStaysLow(g);
        DeckNotEmpty(g, cap);
        ActionNeverCrashes(g, p, action);
      }
  }

  lemma ActionNeverCrashes(g: Game, p: PlayerId, action: Action)
    requires g.deck != [] && !g.crashed && p in g.players && !g.phase.Betting?
    ensures !Act(g, p, action).crashed
  {
    forall h: Game ensures AdvanceTurn(h).crashed == h.crashed {
      AdvanceNeverCrashes(h);
    }
  }
}
