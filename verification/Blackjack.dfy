/**
  The blackjack script as functions on its state: what each hook and helper of the script
  does to `this.state`.  The class `GameServer` runs the script imperatively and is proved
  against these functions; the `*Laws` modules prove what they keep.
*/
module Blackjack {
  import opened Prelude
  import opened Cards
  import opened Engine

  datatype Phase = Waiting | Betting | Playing | Dealer | Ended

  datatype Outcome = Undecided | Lose | Win | Push

  datatype Seat = Seat(
    chips: int,
    hand: seq<Card>,
    bet: int,
    stood: bool,
    busted: bool,
    result: Outcome)

  /** What the script sends that a caller can act on: refusals, and the final round result. */
  datatype Notice =
    | Refused(to: PlayerId, code: int)
    | RoundResult(winners: seq<PlayerId>, scores: map<PlayerId, int>, dealerValue: int, dealerBusted: bool)

  /** History variables: nothing in the script reads them. */
  datatype History = History(
    joins: nat,             // seats ever created
    departed: nat,          // players who left after the game started
    discard: seq<Card>,     // cards in the hands of players who left
    carried: int,           // chips carried off by players who left
    forfeited: int,         // bets overwritten by a second bet or left behind
    paid: int,              // chips paid out by the resolution
    dealerEntries: nat)     // calls of dealerPlay

  /**
    The script's state.  `turnIndex` is the field that only handleDouble reads and that
    nothing assigns: in the script as written it is absent (None).  `timers` is the
    engine's timer table, `drawPending` says that the dealer's `draw` is scheduled, and
    `crashed` that a hook threw (a pop from the empty deck, or a seat that is missing).
  */
  datatype Game = Game(
    phase: Phase,
    deck: seq<Card>,
    players: map<PlayerId, Seat>,
    dealerHand: seq<Card>,
    currentPlayerIndex: nat,
    turnOrder: seq<PlayerId>,
    pot: int,
    turnIndex: Option<int>,
    timers: Timers,
    drawPending: bool,
    crashed: bool,
    outbox: seq<Notice>,
    hist: History)

  datatype Action = Bet(amount: int) | Hit | Stand | Double | Unknown

  const INITIAL_CHIPS: int := 1000
  const MIN_BET: int := 10
  const MAX_BET: int := 500

  const NO_HISTORY := History(0, 0, [], 0, 0, 0, 0)

  /** onInit. */
  function Init(turnIndex: Option<int>): Game {
    Game(Waiting, [], map[], [], 0, [], 0, turnIndex, NO_TIMERS, false, false, [], NO_HISTORY)
  }

  const NEW_SEAT := Seat(INITIAL_CHIPS, [], 0, false, false, Undecided)

  function Refuse(g: Game, p: PlayerId, code: int): Game {
    g.(outbox := g.outbox + [Refused(p, code)])
  }

  function Crash(g: Game): Game { g.(crashed := true) }

  predicate AllSeated(players: map<PlayerId, Seat>, order: seq<PlayerId>) {
    forall p :: p in order ==> p in players
  }

  // ----- Membership -----

  function Join(g: Game, p: PlayerId): Game {
    if g.phase != Waiting then Refuse(g, p, 40001)
    else g.(players := g.players[p := NEW_SEAT],
            turnOrder := g.turnOrder + [p],
            hist := g.hist.(joins := g.hist.joins + 1))
  }

  /** The history a departure leaves behind. */
  function Departure(g: Game, p: PlayerId): History {
    if p !in g.players then g.hist
    else
      var seat := g.players[p];
      g.hist.(departed := g.hist.departed + (if g.phase == Waiting then 0 else 1),
              discard := g.hist.discard + seat.hand,
              carried := g.hist.carried + seat.chips,
              forfeited := g.hist.forfeited + seat.bet)
  }

  /** The part of onPlayerLeave before the turn is advanced. */
  function Unseat(g: Game, p: PlayerId): Game {
    g.(players := g.players - {p},
       turnOrder := Spliced(g.turnOrder, p),
       hist := Departure(g, p))
  }

  function Leave(g: Game, p: PlayerId): Game {
    var left := Unseat(g, p);
    if left.phase == Playing && |left.turnOrder| > 0 then AdvanceTurn(left) else left
  }

  function Start(g: Game, clock: seq<int>): Game {
    g.(deck := Shuffled(Shoe(), clock), phase := Betting)
  }

  // ----- Betting and dealing -----

  function PlaceBet(g: Game, p: PlayerId, amount: int): Game
    requires p in g.players
  {
    var seat := g.players[p];
    g.(players := g.players[p := seat.(bet := amount, chips := seat.chips - amount)],
       pot := g.pot + amount,
       hist := g.hist.(forfeited := g.hist.forfeited + seat.bet))
  }

  predicate AllBet(g: Game) {
    forall p :: p in g.turnOrder ==> p in g.players && g.players[p].bet > 0
  }

  function HandleBet(g: Game, p: PlayerId, amount: int): Game {
    if g.phase != Betting then Refuse(g, p, 40003)
    else if p !in g.players then g
    else if amount < MIN_BET || amount > MAX_BET then Refuse(g, p, 40004)
    else if amount > g.players[p].chips then Refuse(g, p, 40005)
    else
      var placed := PlaceBet(g, p, amount);
      if AllBet(placed) then DealCards(placed) else placed
  }

  /** Two cards from the top of the deck to each player of `order`, in order. */
  function DealHands(players: map<PlayerId, Seat>, deck: seq<Card>, order: seq<PlayerId>)
    : (r: (map<PlayerId, Seat>, seq<Card>))
    requires AllSeated(players, order) && |deck| >= 2 * |order|
    ensures r.0.Keys == players.Keys
    ensures |r.1| == |deck| - 2 * |order|
  {
    if order == [] then (players, deck)
    else
      var n := |deck|;
      var p := order[0];
      assert p in order;
      DealHands(players[p := players[p].(hand := [deck[n - 1], deck[n - 2]])], deck[..n - 2], order[1..])
  }

  function DealCards(g: Game): Game {
    if !AllSeated(g.players, g.turnOrder) || |g.deck| < 2 * |g.turnOrder| + 2 then Crash(g)
    else
      var (players, deck) := DealHands(g.players, g.deck, g.turnOrder);
      g.(phase := Playing,
         players := players,
         dealerHand := [deck[|deck| - 1], deck[|deck| - 2]],
         deck := deck[..|deck| - 2],
         currentPlayerIndex := 0)
  }

  // ----- Turns -----

  predicate IsCurrent(g: Game, p: PlayerId) {
    g.currentPlayerIndex < |g.turnOrder| && g.turnOrder[g.currentPlayerIndex] == p
  }

  /** Pop a card into a player's hand. */
  function TakeCard(g: Game, p: PlayerId): Game
    requires p in g.players && g.deck != []
  {
    var n := |g.deck| - 1;
    g.(deck := g.deck[..n],
       players := g.players[p := g.players[p].(hand := g.players[p].hand + [g.deck[n]])])
  }

  function SetSeat(g: Game, p: PlayerId, seat: Seat): Game {
    g.(players := g.players[p := seat])
  }

  function HandleHit(g: Game, p: PlayerId): Game {
    if g.phase != Playing then g
    else if !IsCurrent(g, p) then Refuse(g, p, 40006)
    else if p !in g.players || g.deck == [] then Crash(g)
    else
      var taken := TakeCard(g, p);
      var seat := taken.players[p];
      var value := Value(seat.hand);
      if value > 21 then AdvanceTurn(SetSeat(taken, p, seat.(busted := true)))
      else if value == 21 then AdvanceTurn(SetSeat(taken, p, seat.(stood := true)))
      else taken
  }

  function HandleStand(g: Game, p: PlayerId): Game {
    if g.phase != Playing then g
    else if !IsCurrent(g, p) then Refuse(g, p, 40006)
    else if p !in g.players then Crash(g)
    else AdvanceTurn(SetSeat(g, p, g.players[p].(stood := true)))
  }

  /**
    Whom handleDouble takes for the current player.  Comparing an absent `turnIndex` with a
    number is false, and the empty string is then used instead of the turn order.
  */
  predicate DoubleTurn(g: Game, p: PlayerId) {
    if g.turnIndex.Some? && g.turnIndex.value < |g.turnOrder| then IsCurrent(g, p) else p == EMPTY_ID
  }

  function DoubleBet(g: Game, p: PlayerId): Game
    requires p in g.players
  {
    var seat := g.players[p];
    g.(players := g.players[p := seat.(chips := seat.chips - seat.bet, bet := seat.bet * 2)],
       pot := g.pot + seat.bet)
  }

  function HandleDouble(g: Game, p: PlayerId): Game {
    if g.phase != Playing then g
    else if !DoubleTurn(g, p) then Refuse(g, p, 40006)
    else if p !in g.players then Crash(g)
    else if |g.players[p].hand| != 2 then Refuse(g, p, 40007)
    else if g.players[p].chips < g.players[p].bet then Refuse(g, p, 40005)
    else if g.deck == [] then Crash(g)
    else
      var taken := TakeCard(DoubleBet(g, p), p);
      var seat := taken.players[p];
      AdvanceTurn(SetSeat(taken, p, seat.(stood := true, busted := seat.busted || Value(seat.hand) > 21)))
  }

  function AdvanceTurn(g: Game): Game
    decreases |g.turnOrder| - g.currentPlayerIndex
  {
    var next := g.(currentPlayerIndex := g.currentPlayerIndex + 1);
    if next.currentPlayerIndex >= |g.turnOrder| then DealerPlay(next)
    else
      var p := g.turnOrder[next.currentPlayerIndex];
      if p in g.players && (g.players[p].busted || g.players[p].stood) then AdvanceTurn(next) else next
  }

  // ----- Dealer and resolution -----

  /** setTimeout(draw): `draw` runs later only if the engine grants the timer. */
  function ScheduleDraw(g: Game): Game {
    var (timers, id) := SetTimer(g.timers, MAX_ACTIVE_TIMERS);
    g.(timers := timers, drawPending := id.Some?)
  }

  function DealerPlay(g: Game): Game {
    ScheduleDraw(g.(phase := Dealer, hist := g.hist.(dealerEntries := g.hist.dealerEntries + 1)))
  }

  /** The scheduled `draw` runs. */
  function Draw(g: Game): Game {
    if Value(g.dealerHand) >= 17 then ResolveGame(g.(drawPending := false))
    else if g.deck == [] then Crash(g)
    else
      var n := |g.deck| - 1;
      ScheduleDraw(g.(dealerHand := g.dealerHand + [g.deck[n]], deck := g.deck[..n]))
  }

  /** What one seat gets back: nothing, its bet, or twice its bet. */
  function Payout(result: Outcome, bet: int): int {
    match result case Win => bet * 2 case Push => bet case _ => 0
  }

  /** The branches of resolveGame for one seat; a bust is read from the `busted` flag. */
  function SeatResult(seat: Seat, dealerValue: int): Outcome {
    if seat.busted then Lose
    else if dealerValue > 21 then Win
    else if Value(seat.hand) > dealerValue then Win
    else if Value(seat.hand) == dealerValue then Push
    else Lose
  }

  function Settle(seat: Seat, dealerValue: int): Seat {
    var result := SeatResult(seat, dealerValue);
    seat.(result := result, chips := seat.chips + Payout(result, seat.bet))
  }

  datatype Settlement = Settlement(
    players: map<PlayerId, Seat>, winners: seq<PlayerId>, scores: map<PlayerId, int>, paid: int)

  /** The loop of resolveGame over the turn order. */
  function SettleAll(players: map<PlayerId, Seat>, order: seq<PlayerId>, dealerValue: int): (r: Settlement)
    requires AllSeated(players, order)
    ensures r.players.Keys == players.Keys
  {
    if order == [] then Settlement(players, [], map[], 0)
    else
      var n := |order| - 1;
      var p := order[n];
      assert p in order;
      assert AllSeated(players, order[..n]) by { assert forall q :: q in order[..n] ==> q in order; }
      var sofar := SettleAll(players, order[..n], dealerValue);
      var seat := Settle(sofar.players[p], dealerValue);
      Settlement(sofar.players[p := seat],
                 if seat.result == Win then sofar.winners + [p] else sofar.winners,
                 sofar.scores[p := seat.chips],
                 sofar.paid + Payout(seat.result, seat.bet))
  }

  function ResolveGame(g: Game): Game {
    if !AllSeated(g.players, g.turnOrder) then Crash(g)
    else
      var dealerValue := Value(g.dealerHand);
      var s := SettleAll(g.players, g.turnOrder, dealerValue);
      g.(players := s.players,
         phase := Ended,
         outbox := g.outbox + [RoundResult(s.winners, s.scores, dealerValue, dealerValue > 21)],
         hist := g.hist.(paid := g.hist.paid + s.paid))
  }

  function Act(g: Game, p: PlayerId, action: Action): Game {
    match action
    case Bet(amount) => HandleBet(g, p, amount)
    case Hit => HandleHit(g, p)
    case Stand => HandleStand(g, p)
    case Double => HandleDouble(g, p)
    case Unknown => Refuse(g, p, 40002)
  }

  // ----- Moves -----

  /** The calls that reach the script. */
  datatype Move =
    | PlayerJoin(p: PlayerId)
    | PlayerLeave(p: PlayerId)
    | GameStart(clock: seq<int>)
    | PlayerAction(p: PlayerId, action: Action)
    | DealerDraw

  /** One call.  After a throw the script's state is left as it is: that case is shown unreachable. */
  function Play(g: Game, move: Move): Game {
    if g.crashed then g
    else
      match move
      case PlayerJoin(p) => Join(g, p)
      case PlayerLeave(p) => Leave(g, p)
      case GameStart(clock) => Start(g, clock)
      case PlayerAction(p, action) => Act(g, p, action)
      case DealerDraw => Draw(g)
  }
}
