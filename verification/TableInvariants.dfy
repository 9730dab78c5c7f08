/** What every call that the room lets through keeps true of the script's state. */
module TableInvariants {
  import opened Prelude
  import opened Cards
  import opened Engine
  import opened Blackjack
  import opened Tally

  /** The script's two copies of membership agree, and nobody sits twice. */
  ghost predicate Members(g: Game) {
    && NoDup(g.turnOrder)
    && forall p :: p in g.turnOrder <==> p in g.players
  }

  predicate InPlay(phase: Phase) { phase.Playing? || phase.Dealer? || phase.Ended? }

  predicate Active(seat: Seat) { !seat.stood && !seat.busted }

  predicate SeatOk(phase: Phase, seat: Seat) {
    && seat.chips >= 0
    && seat.bet >= 0
    && (phase.Waiting? ==> seat == NEW_SEAT)
    && (phase.Betting? ==>
          seat.hand == [] && Active(seat) && seat.result == Undecided && (seat.bet == 0 || seat.bet >= MIN_BET))
    && (InPlay(phase) ==>
          && seat.bet >= MIN_BET
          && 2 <= |seat.hand| <= 21
          && Low(seat.hand) <= 30
          && (Active(seat) || |seat.hand| == 2 ==> Low(seat.hand) <= 20)
          && (seat.busted <==> Value(seat.hand) > 21)
          && (seat.result == Undecided <==> !phase.Ended?))
  }

  ghost predicate SeatsOk(g: Game) {
    forall p :: p in g.players ==> SeatOk(g.phase, g.players[p])
  }

  /** A player whose turn has not come: two cards, neither stood nor busted. */
  predicate Untouched(seat: Seat) { Active(seat) && |seat.hand| == 2 }

  /**
    Whether handleDouble can be taken by somebody who is not the current player, at some
    number of seats: only by a player whose id is the empty string, and only if the index that
    the guard reads is absent or can reach two seats.
  */
  predicate DoubleOutOfTurn(g: Game, p: PlayerId) {
    p == EMPTY_ID && !(g.turnIndex.Some? && g.turnIndex.value <= 1)
  }

  ghost predicate AheadOk(g: Game, from: int) {
    forall j :: from <= j < |g.turnOrder| && 0 <= j ==>
      && g.turnOrder[j] in g.players
      && (Untouched(g.players[g.turnOrder[j]]) || DoubleOutOfTurn(g, g.turnOrder[j]))
  }

  /** While somebody is seated the index is in range, its player can act, and those ahead have not. */
  ghost predicate TurnOk(g: Game) {
    g.phase.Playing? && g.turnOrder != [] ==>
      && g.currentPlayerIndex < |g.turnOrder|
      && g.turnOrder[g.currentPlayerIndex] in g.players
      && Active(g.players[g.turnOrder[g.currentPlayerIndex]])
      && AheadOk(g, g.currentPlayerIndex + 1)
  }

  /** A dealer's hand below 17: how few cards of low total it can be made of. */
  predicate Drawing(hand: seq<Card>) {
    && |hand| <= Low(hand)
    && (Low(hand) <= 6 || (Low(hand) <= 11 && Aces(hand) == 0) || |hand| + 5 <= Low(hand))
  }

  predicate DealerHandOk(hand: seq<Card>) {
    if Value(hand) < 17 then Drawing(hand) else Value(hand) <= 26 && |hand| <= 12 && Low(hand) <= 26
  }

  /** The dealer's hand, entries and timers, phase by phase; each draw so far holds one timer slot. */
  ghost predicate DealerOk(g: Game) {
    && TimersOk(g.timers)
    && (g.phase.Waiting? || g.phase.Betting? ==> g.dealerHand == [])
    && (g.phase.Playing? ==> |g.dealerHand| == 2)
    && (!g.phase.Dealer? && !g.phase.Ended? ==>
          g.timers.live == {} && !g.drawPending && g.hist.dealerEntries == 0)
    && (g.phase.Dealer? || g.phase.Ended? ==>
          && |g.dealerHand| >= 2
          && |g.timers.live| == |g.dealerHand| - 1
          && g.hist.dealerEntries == 1
          && DealerHandOk(g.dealerHand)
          && g.drawPending == g.phase.Dealer?)
    && (g.phase.Ended? ==> Value(g.dealerHand) >= 17)
  }

  function Pile(g: Game, m: Measure): int {
    Weigh(m, g.deck) + Sum(Hands(m), g.players, g.turnOrder) + Weigh(m, g.dealerHand) + Weigh(m, g.hist.discard)
  }

  /** No card appears or disappears: by every measure the piles weigh what the full shoe does. */
  ghost predicate CardsOk(g: Game) {
    if g.phase.Waiting? then g.deck == [] && g.hist.discard == []
    else forall m: Measure :: Pile(g, m) == ShoeWeight(m)
  }

  /** At most `cap` players were ever dealt in, and those who left took at most 30 in low total each. */
  ghost predicate CrowdOk(g: Game, cap: nat) {
    && |g.turnOrder| + g.hist.departed <= cap
    && (g.phase.Waiting? ==> g.hist.departed == 0)
    && Low(g.hist.discard) <= 30 * g.hist.departed
  }

  /** The chip ledger: every chip is in the pot, in front of a player, carried off or paid out. */
  ghost predicate ChipsOk(g: Game) {
    && g.pot + Sum(Chips, g.players, g.turnOrder) + g.hist.carried == INITIAL_CHIPS * g.hist.joins + g.hist.paid
    && g.pot == Sum(Bets, g.players, g.turnOrder) + g.hist.forfeited
    && g.hist.forfeited >= 0
    && g.hist.carried >= 0
    && (!g.phase.Ended? ==> g.hist.paid == 0)
  }

  ghost predicate TableOk(g: Game, cap: nat) {
    && Members(g)
    && SeatsOk(g)
    && TurnOk(g)
    && DealerOk(g)
    && CardsOk(g)
    && CrowdOk(g, cap)
    && ChipsOk(g)
  }

  /** What the room guarantees of the calls it lets through. */
  ghost predicate Allowed(g: Game, move: Move, cap: nat) {
    match move
    case PlayerJoin(p) => g.phase.Waiting? && p !in g.players && |g.players| < cap
    case PlayerLeave(p) => p in g.players
    case GameStart(_) => g.phase.Waiting?
    case PlayerAction(p, _) => p in g.players && !g.phase.Waiting?
    case DealerDraw => g.drawPending
  }
}
