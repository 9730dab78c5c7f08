/**
  The bound of 67 seats is exact: 68 players can draw the whole shoe and ask for one more card.
  Their hands are given by what their cards count low; a shuffle of the shoe deals them out.
*/
module DeckLimit {
  import opened Prelude
  import opened Cards
  import opened Engine
  import opened Blackjack
  import opened TableInvariants
  import opened CardLaws
  import opened TableLaws
  import opened Room
  import opened RoomLaws
  import opened RoundLaws
  import RoundEnd

  // ----- Hands by their low counts -----

  function SumOf(lows: seq<nat>): nat {
    if lows == [] then 0 else SumOf(lows[..|lows| - 1]) + lows[|lows| - 1]
  }

  function LowsOf(cards: seq<Card>): seq<nat> { seq(|cards|, i requires 0 <= i < |cards| => cards[i].Low()) }

  /** The value of a hand whose cards count `lows`. */
  function LowValue(lows: seq<nat>): nat {
    if 1 in lows && SumOf(lows) <= 11 then SumOf(lows) + 10 else SumOf(lows)
  }

  lemma {:induction false} ValueOfLows(hand: seq<Card>)
    ensures Low(hand) == SumOf(LowsOf(hand))
    ensures Aces(hand) > 0 <==> 1 in LowsOf(hand)
    ensures Value(hand) == LowValue(LowsOf(hand))
  {
    if hand != [] {
      var n := |hand| - 1;
      var front := hand[..n];
      ValueOfLows(front);
      assert hand == front + [hand[n]];
      assert LowsOf(hand) == LowsOf(front) + [hand[n].Low()];
      assert LowsOf(hand)[..n] == LowsOf(front);
      WeighPush(LowTotal, front, hand[n]);
      AcesConcat(front, [hand[n]]);
      assert [hand[n]][1..] == [];
    }
  }

  /** A hand drawn to a bust: below 21 after every card but the last. */
  predicate Busts(lows: seq<nat>) {
    && |lows| >= 3 && LowValue(lows) > 21
    && forall j :: 2 <= j < |lows| ==> LowValue(lows[..j]) < 21
  }

  /** A hand below 21 after every card. */
  predicate StaysBelow(lows: seq<nat>) {
    |lows| >= 2 && forall j :: 2 <= j <= |lows| ==> LowValue(lows[..j]) < 21
  }

  /** Everybody busts but the last player, who stays below 21. */
  predicate Exhausting(plans: seq<seq<Card>>) {
    && plans != []
    && (forall k :: 0 <= k < |plans| - 1 ==> Busts(LowsOf(plans[k])))
    && StaysBelow(LowsOf(plans[|plans| - 1]))
  }

  // ----- The order in which the cards are drawn -----

  function Firsts(plans: seq<seq<Card>>): seq<Card>
    requires forall k :: 0 <= k < |plans| ==> |plans[k]| >= 2
  {
    if plans == [] then [] else plans[0][..2] + Firsts(plans[1..])
  }

  /** The cards hit from player `k` on. */
  function Draws(plans: seq<seq<Card>>, k: nat): seq<Card>
    requires forall i :: 0 <= i < |plans| ==> |plans[i]| >= 2
    decreases |plans| - k
  {
    if k >= |plans| then [] else plans[k][2..] + Draws(plans, k + 1)
  }

  function Flat<T>(parts: seq<seq<T>>): seq<T> {
    if parts == [] then [] else parts[0] + Flat(parts[1..])
  }

  /** The deck from which `draws` are popped in order. */
  function Stack(draws: seq<Card>): (deck: seq<Card>)
    ensures |deck| == |draws|
    ensures forall i :: 0 <= i < |draws| ==> deck[i] == draws[|draws| - 1 - i]
  {
    seq(|draws|, i requires 0 <= i < |draws| => draws[|draws| - 1 - i])
  }

  lemma StackPop(draws: seq<Card>)
    requires draws != []
    ensures Stack(draws)[|draws| - 1] == draws[0]
    ensures Stack(draws)[..|draws| - 1] == Stack(draws[1..])
  {
  }

  lemma StackDrop(draws: seq<Card>, n: nat)
    requires n <= |draws|
    ensures Stack(draws)[..|draws| - n] == Stack(draws[n..])
  {
  }

  lemma {:induction false} StackMultiset(draws: seq<Card>)
    ensures multiset(Stack(draws)) == multiset(draws)
  {
    if draws != [] {
      StackPop(draws);
      StackMultiset(draws[1..]);
      assert Stack(draws) == Stack(draws)[..|draws| - 1] + [draws[0]];
      assert draws == [draws[0]] + draws[1..];
    }
  }

  lemma {:induction false} FirstsAt(plans: seq<seq<Card>>, k: nat)
    requires forall i :: 0 <= i < |plans| ==> |plans[i]| >= 2
    requires k < |plans|
    ensures |Firsts(plans)| == 2 * |plans|
    ensures Firsts(plans)[2 * k] == plans[k][0] && Firsts(plans)[2 * k + 1] == plans[k][1]
    decreases |plans|
  {
    if |plans| > 1 {
      FirstsAt(plans[1..], if k == 0 then 0 else k - 1);
    } else {
      assert Firsts(plans[1..]) == [];
    }
  }

  lemma {:induction false} DrawsShift(plans: seq<seq<Card>>, k: nat)
    requires plans != [] && forall i :: 0 <= i < |plans| ==> |plans[i]| >= 2
    ensures Draws(plans, k + 1) == Draws(plans[1..], k)
    decreases |plans| - k
  {
    if k + 1 < |plans| {
      DrawsShift(plans, k + 1);
    }
  }

  lemma {:induction false} PartsMultiset(plans: seq<seq<Card>>)
    requires forall i :: 0 <= i < |plans| ==> |plans[i]| >= 2
    ensures multiset(Firsts(plans)) + multiset(Draws(plans, 0)) == multiset(Flat(plans))
  {
    if plans != [] {
      DrawsShift(plans, 0);
      PartsMultiset(plans[1..]);
      assert plans[0] == plans[0][..2] + plans[0][2..];
    }
  }

  // ----- Playing the hands out -----

  function Name(k: nat): PlayerId { Pid(seq(k + 1, _ => 'a')) }

  lemma NamesDiffer(i: nat, k: nat)
    ensures Name(i) == Name(k) <==> i == k
  {
    assert |Name(i).name| == i + 1 && |Name(k).name| == k + 1;
  }

  function Order(n: nat): (order: seq<PlayerId>)
    ensures |order| == n && forall i :: 0 <= i < n ==> order[i] == Name(i)
  {
    seq(n, i requires 0 <= i < n => Name(i))
  }

  lemma OrderNoDup(n: nat)
    ensures NoDup(Order(n))
  {
    forall i, k | 0 <= i < k < n ensures Order(n)[i] != Order(n)[k] { NamesDiffer(i, k); }
  }

  /** Players before `k` have bust, `k` holds `j` cards of its plan, those after hold two. */
  ghost predicate PlayingOut(g: Game, plans: seq<seq<Card>>, k: nat, j: nat)
    requires forall i :: 0 <= i < |plans| ==> |plans[i]| >= 2
  {
    && !g.crashed && g.phase.Playing? && g.turnOrder == Order(|plans|)
    && k < |plans| && g.currentPlayerIndex == k && 2 <= j <= |plans[k]|
    && (forall i :: 0 <= i < |plans| ==> Name(i) in g.players)
    && g.players[Name(k)].hand == plans[k][..j] && Active(g.players[Name(k)])
    && (forall i :: k < i < |plans| ==> g.players[Name(i)].hand == plans[i][..2] && Active(g.players[Name(i)]))
    && g.deck == Stack(plans[k][j..] + Draws(plans, k + 1))
  }

  lemma PlanValues(plan: seq<Card>, j: nat)
    requires j <= |plan|
    ensures Value(plan[..j]) == LowValue(LowsOf(plan)[..j])
  {
    ValueOfLows(plan[..j]);
    assert LowsOf(plan[..j]) == LowsOf(plan)[..j];
  }

  /** One more card, below 21. */
  lemma DrawStays(g: Game, plans: seq<seq<Card>>, k: nat, j: nat)
    requires forall i :: 0 <= i < |plans| ==> |plans[i]| >= 2
    requires PlayingOut(g, plans, k, j) && j < |plans[k]| && Value(plans[k][..j + 1]) < 21
    ensures PlayingOut(HandleHit(g, Name(k)), plans, k, j + 1)
  {
    hide Value, AdvanceTurn, Stack, Name;
    HitDraws(g, plans, k, j);
    forall i | k < i < |plans| ensures Name(i) != Name(k) { NamesDiffer(i, k); }
  }

  /** What a hit does to the piles: the next card of the plan goes from the deck to the hand. */
  lemma HitDraws(g: Game, plans: seq<seq<Card>>, k: nat, j: nat)
    requires forall i :: 0 <= i < |plans| ==> |plans[i]| >= 2
    requires PlayingOut(g, plans, k, j) && j < |plans[k]|
    ensures IsCurrent(g, Name(k)) && Name(k) in g.players && g.deck != []
    ensures var h := HitTable(g, Name(k));
      && HandleHit(g, Name(k)) == (if Value(plans[k][..j + 1]) >= 21 then AdvanceTurn(h) else h)
      && h.players[Name(k)] == HitSeat(g.players[Name(k)], plans[k][j])
      && h.players[Name(k)].hand == plans[k][..j + 1]
      && h.deck == Stack(plans[k][j + 1..] + Draws(plans, k + 1))
  {
    hide Value, AdvanceTurn, Stack, Draws;
    var draws := plans[k][j..] + Draws(plans, k + 1);
    StackPop(draws);
    assert draws[0] == plans[k][j] && draws[1..] == plans[k][j + 1..] + Draws(plans, k + 1);
    assert |Stack(draws)| == |draws|;
    HitIsOneChange(g, Name(k));
    HitSeatHand(g.players[Name(k)], plans[k][j]);
    assert plans[k][..j] + [plans[k][j]] == plans[k][..j + 1];
  }

  /** The last card of a plan that busts: the turn goes to the next player. */
  lemma DrawBusts(g: Game, plans: seq<seq<Card>>, k: nat, j: nat)
    requires forall i :: 0 <= i < |plans| ==> |plans[i]| >= 2
    requires PlayingOut(g, plans, k, j) && j + 1 == |plans[k]| && k + 1 < |plans| && Value(plans[k]) > 21
    ensures PlayingOut(HandleHit(g, Name(k)), plans, k + 1, 2)
  {
    hide Value, Stack, AdvanceTurn, Name, HitSeat, HandleHit, Draws;
    HitDraws(g, plans, k, j);
    var h := HitTable(g, Name(k));
    assert plans[k][..j + 1] == plans[k] && plans[k][j + 1..] == [];
    forall i | k < i < |plans| ensures Name(i) != Name(k) { NamesDiffer(i, k); }
    NextIsActive(h, Name(k + 1));
    DrawsFrom(plans, k + 1);
    assert [] + Draws(plans, k + 1) == Draws(plans, k + 1);
  }

  /** The turn goes to the next player if that one can act. */
  lemma NextIsActive(g: Game, p: PlayerId)
    requires g.currentPlayerIndex + 1 < |g.turnOrder| && g.turnOrder[g.currentPlayerIndex + 1] == p
    requires p in g.players && Active(g.players[p])
    ensures AdvanceTurn(g) == g.(currentPlayerIndex := g.currentPlayerIndex + 1)
  {
  }

  lemma DrawsFrom(plans: seq<seq<Card>>, k: nat)
    requires k < |plans| && forall i :: 0 <= i < |plans| ==> |plans[i]| >= 2
    ensures Draws(plans, k) == plans[k][2..] + Draws(plans, k + 1)
  {
  }

  // ----- The room of that table -----

  ghost predicate Seated(r: Room, n: nat) {
    !r.destroyed && r.isPlaying && forall i :: 0 <= i < n ==> Name(i) in r.players
  }

  lemma ActionStep(r: Room, n: nat, p: PlayerId, action: Action)
    requires Seated(r, n) && p in r.players && !r.game.crashed
    ensures var t := Next(r, Deliver(MsgPlayerAction(p, action))); Seated(t, n) && t.game == Act(r.game, p, action)
  {
    hide Act, Name;
    PlayOf(r, Deliver(MsgPlayerAction(p, action)));
  }

  lemma HitStep(r: Room, n: nat, p: PlayerId)
    requires Seated(r, n) && p in r.players && !r.game.crashed
    ensures var t := Next(r, Deliver(MsgPlayerAction(p, Hit))); Seated(t, n) && t.game == HandleHit(r.game, p)
    ensures RunFrom(r, [Deliver(MsgPlayerAction(p, Hit))]) == Next(r, Deliver(MsgPlayerAction(p, Hit)))
  {
    ActionStep(r, n, p, Hit);
    hide Next, HandleHit, Seated;
    assert [Deliver(MsgPlayerAction(p, Hit))][..0] == [];
  }

  /** One hit of the player whose plan is being drawn: on to the next card, or to the next player. */
  lemma DrawOne(g: Game, plans: seq<seq<Card>>, k: nat, j: nat)
    requires forall i :: 0 <= i < |plans| ==> |plans[i]| >= 2
    requires Exhausting(plans) && PlayingOut(g, plans, k, j) && j < |plans[k]|
    ensures var h := HandleHit(g, Name(k));
      if j + 1 == |plans[k]| && k + 1 < |plans| then PlayingOut(h, plans, k + 1, 2) else PlayingOut(h, plans, k, j + 1)
    ensures |HandleHit(g, Name(k)).deck| < |g.deck|
  {
    PlanValues(plans[k], j + 1);
    assert |LowsOf(plans[k])| == |plans[k]|;
    assert plans[k][..|plans[k]|] == plans[k] && LowsOf(plans[k])[..|plans[k]|] == LowsOf(plans[k]);
    hide HandleHit, LowValue, Draws, Value, PlayingOut, LowsOf;
    if j + 1 == |plans[k]| && k + 1 < |plans| {
      DrawBusts(g, plans, k, j);
    } else {
      DrawStays(g, plans, k, j);
    }
    DeckShrinks(g, HandleHit(g, Name(k)), plans, k, j);
  }

  lemma LongPlan(plans: seq<seq<Card>>, k: nat)
    requires Exhausting(plans) && k < |plans| - 1
    ensures 2 < |plans[k]|
  {
    assert |LowsOf(plans[k])| >= 3;
  }

  lemma Alive(g: Game, plans: seq<seq<Card>>, k: nat, j: nat)
    requires forall i :: 0 <= i < |plans| ==> |plans[i]| >= 2
    requires PlayingOut(g, plans, k, j)
    ensures !g.crashed && k < |plans| && j <= |plans[k]|
  {
  }

  lemma {:induction false} DrawOn(r: Room, plans: seq<seq<Card>>, k: nat, j: nat) returns (steps: seq<Step>)
    requires forall i :: 0 <= i < |plans| ==> |plans[i]| >= 2
    requires Exhausting(plans) && Seated(r, |plans|) && PlayingOut(r.game, plans, k, j)
    requires k < |plans| - 1 ==> j < |plans[k]|
    ensures RunFrom(r, steps).game.crashed
    decreases |r.game.deck|
  {
    hide Next, HandleHit, Seated, PlayingOut, Exhausting, RunFrom, Name;
    Alive(r.game, plans, k, j);
    var hit := Deliver(MsgPlayerAction(Name(k), Hit));
    var t := Next(r, hit);
    SeatedAt(r, |plans|, k);
    HitStep(r, |plans|, Name(k));
    if j == |plans[k]| {
      NothingLeft(r.game, plans, k);
      steps := [hit];
    } else {
      DrawOne(r.game, plans, k, j);
      var rest;
      if j + 1 == |plans[k]| && k + 1 < |plans| {
        if k + 1 < |plans| - 1 {
          LongPlan(plans, k + 1);
        }
        rest := DrawOn(t, plans, k + 1, 2);
      } else {
        rest := DrawOn(t, plans, k, j + 1);
      }
      steps := [hit] + rest;
      RoundEnd.RunFromAfter(r, hit, rest);
    }
  }

  lemma SeatedAt(r: Room, n: nat, k: nat)
    requires Seated(r, n) && k < n
    ensures Name(k) in r.players
  {
  }

  lemma DeckShrinks(g: Game, h: Game, plans: seq<seq<Card>>, k: nat, j: nat)
    requires forall i :: 0 <= i < |plans| ==> |plans[i]| >= 2
    requires PlayingOut(g, plans, k, j) && j < |plans[k]|
    requires PlayingOut(h, plans, k, j + 1) || (j + 1 == |plans[k]| && PlayingOut(h, plans, k + 1, 2))
    ensures |h.deck| < |g.deck|
  {
    if k + 1 < |plans| {
      assert Draws(plans, k + 1) == plans[k + 1][2..] + Draws(plans, k + 2);
    }
  }

  /** The last player has drawn everything: the next hit finds the deck empty. */
  lemma NothingLeft(g: Game, plans: seq<seq<Card>>, k: nat)
    requires forall i :: 0 <= i < |plans| ==> |plans[i]| >= 2
    requires k == |plans| - 1 && PlayingOut(g, plans, k, |plans[k]|)
    ensures HandleHit(g, Name(k)).crashed
  {
    hide Value, AdvanceTurn, Name;
    assert Draws(plans, k + 1) == [];
  }

  // ----- Joining, betting and the deal -----

  /** `n` players at the table, the first `k` of them with a bet of 10. */
  ghost predicate Staked(g: Game, n: nat, k: nat) {
    && !g.crashed && g.turnOrder == Order(n)
    && (forall p :: p in g.players <==> p in g.turnOrder)
    && forall i :: 0 <= i < n && Name(i) in g.players ==>
         g.players[Name(i)] == Seat(if i < k then 990 else 1000, [], if i < k then 10 else 0, false, false, Undecided)
  }

  lemma InOrder(n: nat, i: nat)
    requires i < n
    ensures Name(i) in Order(n)
  {
    assert Order(n)[i] == Name(i);
  }

  lemma StakeNext(g: Game, n: nat, k: nat)
    requires Staked(g, n, k) && g.phase.Betting? && k + 1 < n
    ensures var h := HandleBet(g, Name(k), 10);
      Staked(h, n, k + 1) && h.phase.Betting? && h.deck == g.deck
  {
    hide DealCards, Name;
    InOrder(n, k);
    InOrder(n, k + 1);
    NamesDiffer(k, k + 1);
    assert g.players[Name(k + 1)].bet == 0;
    forall i | 0 <= i < n ensures Name(i) == Name(k) <==> i == k { NamesDiffer(i, k); }
    assert !AllBet(PlaceBet(g, Name(k), 10));
  }

  /** The cards of a table about to be dealt: first cards, the dealer's two, then the hits. */
  ghost predicate Loaded(deck: seq<Card>, plans: seq<seq<Card>>, dealer: seq<Card>)
    requires forall i :: 0 <= i < |plans| ==> |plans[i]| >= 2
  {
    |dealer| == 2 && deck == Stack(Firsts(plans) + dealer + Draws(plans, 0))
  }

  /** The last bet deals everybody the first two cards of their plan. */
  lemma LastBetDeals(g: Game, plans: seq<seq<Card>>, dealer: seq<Card>)
    requires plans != [] && forall i :: 0 <= i < |plans| ==> |plans[i]| >= 2
    requires Staked(g, |plans|, |plans| - 1) && g.phase.Betting? && Loaded(g.deck, plans, dealer)
    ensures PlayingOut(HandleBet(g, Name(|plans| - 1), 10), plans, 0, 2)
  {
    var n := |plans|;
    var placed := PlaceBet(g, Name(n - 1), 10);
    AllStaked(g, n);
    FirstsAt(plans, 0);
    OrderNoDup(n);
    assert |g.deck| == 2 * n + 2 + |Draws(plans, 0)|;
    assert AllSeated(placed.players, Order(n));
    hide HandleBet, DealHands, Stack, Firsts, Draws, Name, AllBet, PlaceBet, Loaded;
    DealsPlans(placed, plans, dealer);
    BetDeals(g, Name(n - 1));
  }

  lemma BetDeals(g: Game, p: PlayerId)
    requires p in g.players && g.phase.Betting? && g.players[p].chips >= 10 && AllBet(PlaceBet(g, p, 10))
    ensures HandleBet(g, p, 10) == DealCards(PlaceBet(g, p, 10))
  {
    hide DealCards, PlaceBet, AllBet;
  }

  lemma AllStaked(g: Game, n: nat)
    requires n > 0 && Staked(g, n, n - 1)
    ensures Name(n - 1) in g.players && g.players[Name(n - 1)].chips >= 10
    ensures var placed := PlaceBet(g, Name(n - 1), 10);
      && AllBet(placed) && placed.players.Keys == g.players.Keys
      && !placed.crashed && placed.turnOrder == Order(n) && placed.deck == g.deck
      && forall p :: p in placed.players ==> Active(placed.players[p])
  {
    InOrder(n, n - 1);
    hide Name;
    forall i | 0 <= i < n ensures Name(i) in g.players && (Name(i) == Name(n - 1) <==> i == n - 1) {
      InOrder(n, i);
      NamesDiffer(i, n - 1);
    }
    var placed := PlaceBet(g, Name(n - 1), 10);
    forall p | p in placed.players ensures Active(placed.players[p]) && placed.players[p].bet > 0 {
      assert p in Order(n);
      var i :| 0 <= i < n && Order(n)[i] == p;
    }
  }

  lemma DealsPlans(g: Game, plans: seq<seq<Card>>, dealer: seq<Card>)
    requires plans != [] && forall i :: 0 <= i < |plans| ==> |plans[i]| >= 2
    requires !g.crashed && g.turnOrder == Order(|plans|) && Loaded(g.deck, plans, dealer)
    requires NoDup(g.turnOrder) && AllSeated(g.players, g.turnOrder)
    requires forall p :: p in g.players ==> Active(g.players[p])
    ensures PlayingOut(DealCards(g), plans, 0, 2)
  {
    hide DealHands, Name, Firsts, Draws;
    var n := |plans|;
    var draws := Firsts(plans) + dealer + Draws(plans, 0);
    FirstsAt(plans, 0);
    assert |g.deck| == |draws| == 2 * n + 2 + |Draws(plans, 0)|;
    forall i | 0 <= i < n
      ensures Name(i) in g.players
      ensures DealHands(g.players, g.deck, g.turnOrder).0[Name(i)] == g.players[Name(i)].(hand := plans[i][..2])
    {
      InOrder(n, i);
      FirstsAt(plans, i);
      DealsInOrder(g.players, g.deck, g.turnOrder, i);
      assert DealtTo(g.deck, i) == [draws[2 * i], draws[2 * i + 1]];
      assert plans[i][..2] == [plans[i][0], plans[i][1]];
    }
    DealRest(g.players, g.deck, g.turnOrder);
    StackDrop(draws, 2 * n + 2);
    assert g.deck[..|g.deck| - 2 * n][..|g.deck| - 2 * n - 2] == g.deck[..|g.deck| - 2 * n - 2];
    assert draws[2 * n + 2..] == Draws(plans, 0);
    DrawsFrom(plans, 0);
  }

  lemma {:induction false} BetOn(r: Room, plans: seq<seq<Card>>, dealer: seq<Card>, k: nat) returns (steps: seq<Step>)
    requires forall i :: 0 <= i < |plans| ==> |plans[i]| >= 2
    requires Exhausting(plans) && Seated(r, |plans|) && k < |plans|
    requires Staked(r.game, |plans|, k) && r.game.phase.Betting? && Loaded(r.game.deck, plans, dealer)
    ensures RunFrom(r, steps).game.crashed
    decreases |plans| - k
  {
    hide Next, HandleBet, Seated, Loaded, Exhausting, PlayingOut, Order, Name;
    var n := |plans|;
    var bet := Deliver(MsgPlayerAction(Name(k), Bet(10)));
    var t := Next(r, bet);
    SeatedAt(r, n, k);
    ActionStep(r, n, Name(k), Bet(10));
    var rest;
    if k + 1 < n {
      StakeNext(r.game, n, k);
      rest := BetOn(t, plans, dealer, k + 1);
    } else {
      LastBetDeals(r.game, plans, dealer);
      if 0 < n - 1 {
        LongPlan(plans, 0);
      }
      rest := DrawOn(t, plans, 0, 2);
    }
    steps := [bet] + rest;
    RoundEnd.RunFromAfter(r, bet, rest);
  }

  function JoinSteps(n: nat): seq<Step> {
    if n == 0 then [] else JoinSteps(n - 1) + [Deliver(MsgPlayerJoin(Name(n - 1), Some("")))]
  }

  ghost predicate Gathered(r: Room, n: nat) {
    && !r.destroyed && !r.isPlaying && |r.players| == n
    && (forall p :: p in r.players <==> p in Order(n))
    && Staked(r.game, n, 0) && r.game.phase.Waiting?
  }

  lemma JoinStaked(g: Game, n: nat)
    requires Staked(g, n, 0) && g.phase.Waiting?
    ensures Staked(Join(g, Name(n)), n + 1, 0) && Join(g, Name(n)).phase.Waiting? && !Join(g, Name(n)).crashed
  {
    NewName(n);
    hide Name;
    assert Order(n + 1) == Order(n) + [Name(n)];
  }

  lemma OrderGrows(n: nat)
    ensures forall p :: p in Order(n + 1) <==> p in Order(n) || p == Name(n)
  {
    hide Name;
    assert Order(n + 1) == Order(n) + [Name(n)];
  }

  lemma JoinNext(r: Room, n: nat)
    requires Gathered(r, n) && n < r.maxPlayers
    ensures Gathered(Next(r, Deliver(MsgPlayerJoin(Name(n), Some("")))), n + 1)
  {
    hide Name, Staked, Join, Order, Next;
    NewName(n);
    OrderGrows(n);
    MapSizes(r.players, Name(n), Member("", false));
    JoinStaked(r.game, n);
    StakedLives(r.game, n, 0);
    JoinsIn(r, Name(n));
  }

  lemma StakedLives(g: Game, n: nat, k: nat)
    requires Staked(g, n, k)
    ensures !g.crashed
  {
  }

  lemma JoinsIn(r: Room, p: PlayerId)
    requires !r.destroyed && !r.game.crashed && !r.isPlaying && |r.players| < r.maxPlayers && p !in r.players
    ensures var t := Next(r, Deliver(MsgPlayerJoin(p, Some(""))));
      && t.players == r.players[p := Member("", false)] && t.isPlaying == r.isPlaying && t.destroyed == r.destroyed
      && t.game == Join(r.game, p)
  {
    hide Join;
  }

  lemma NewName(n: nat)
    ensures Name(n) !in Order(n)
  {
    forall i | 0 <= i < n ensures Order(n)[i] != Name(n) { NamesDiffer(i, n); }
  }

  lemma {:induction false} JoinAll(maxPlayers: int, turnIndex: Option<int>, n: nat)
    requires n <= maxPlayers
    ensures Gathered(Run(maxPlayers, turnIndex, JoinSteps(n)), n)
  {
    hide Next, Name;
    if n > 0 {
      JoinAll(maxPlayers, turnIndex, n - 1);
      assert JoinSteps(n)[..|JoinSteps(n)| - 1] == JoinSteps(n - 1);
      MaxPlayersFixed(NewRoom(maxPlayers, turnIndex), JoinSteps(n - 1));
      JoinNext(Run(maxPlayers, turnIndex, JoinSteps(n - 1)), n - 1);
      RunStep(maxPlayers, turnIndex, JoinSteps(n));
    }
  }

  lemma StartNext(r: Room, n: nat, clock: seq<int>)
    requires Gathered(r, n)
    ensures var t := Next(r, Deliver(MsgGameStart(clock)));
      Seated(t, n) && Staked(t.game, n, 0) && t.game.phase.Betting? && t.game.deck == Shuffled(Shoe(), clock)
  {
    hide Shoe, Shuffled, Name;
    forall i | 0 <= i < n ensures Name(i) in r.players { InOrder(n, i); }
  }

  /** A shoe that can be cut into such hands runs out in a room with a seat for each. */
  lemma PlansRunOut(maxPlayers: int, turnIndex: Option<int>, plans: seq<seq<Card>>, dealer: seq<Card>)
    returns (steps: seq<Step>)
    requires Exhausting(plans) && |dealer| == 2 && |plans| <= maxPlayers
    requires multiset(Flat(plans)) + multiset(dealer) == multiset(Shoe())
    ensures Run(maxPlayers, turnIndex, steps).game.crashed
  {
    hide Shoe, Next, Shuffled, RunFrom, Firsts, Draws;
    PlansLong(plans);
    var n := |plans|;
    var draws := Firsts(plans) + dealer + Draws(plans, 0);
    PartsMultiset(plans);
    StackMultiset(draws);
    ShuffleIsExactlyPermutation(Shoe(), Stack(draws));
    var clock: seq<int> :| Shuffled(Shoe(), clock) == Stack(draws);
    var r := Run(maxPlayers, turnIndex, JoinSteps(n));
    JoinAll(maxPlayers, turnIndex, n);
    var start := Deliver(MsgGameStart(clock));
    StartNext(r, n, clock);
    var t := Next(r, start);
    var rest := BetOn(t, plans, dealer, 0);
    RoundEnd.RunFromAfter(r, start, rest);
    RoundEnd.RunFromConcat(NewRoom(maxPlayers, turnIndex), JoinSteps(n), [start] + rest);
    steps := JoinSteps(n) + ([start] + rest);
  }

  lemma PlansLong(plans: seq<seq<Card>>)
    requires Exhausting(plans)
    ensures forall i :: 0 <= i < |plans| ==> |plans[i]| >= 2
  {
    forall i | 0 <= i < |plans| ensures |plans[i]| >= 2 {
      assert |LowsOf(plans[i])| >= 2;
    }
  }

  // ----- Sixty-eight hands -----

  function Copies(plan: seq<nat>, n: nat): seq<seq<nat>> { seq(n, _ => plan) }

  /** 24 + 24 + 8 + 11 hands that bust at 30, and one of 10. */
  function LowPlans(): seq<seq<nat>> {
    Copies([9, 8, 3, 10], 24) + Copies([7, 6, 5, 2, 10], 24) + Copies([10, 10, 10], 8)
      + Copies([10, 4, 4, 1, 1, 10], 11) + [[4, 4, 1, 1]]
  }

  lemma {:induction false} SumPush(lows: seq<nat>, x: nat)
    ensures SumOf(lows + [x]) == SumOf(lows) + x
  {
    assert (lows + [x])[..|lows|] == lows;
  }

  /** The sums of a hand of up to six cards, one card at a time. */
  lemma SumsOf(a: nat, b: nat, c: nat, d: nat, e: nat, f: nat)
    ensures SumOf([a, b]) == a + b && SumOf([a, b, c]) == a + b + c && SumOf([a, b, c, d]) == a + b + c + d
    ensures SumOf([a, b, c, d, e]) == a + b + c + d + e && SumOf([a, b, c, d, e, f]) == a + b + c + d + e + f
  {
    SumPush([], a);
    SumPush([a], b);
    SumPush([a, b], c);
    SumPush([a, b, c], d);
    SumPush([a, b, c, d], e);
    SumPush([a, b, c, d, e], f);
    hide SumOf;
    assert [] + [a] == [a] && [a] + [b] == [a, b] && [a, b] + [c] == [a, b, c] && [a, b, c] + [d] == [a, b, c, d];
    assert [a, b, c, d] + [e] == [a, b, c, d, e] && [a, b, c, d, e] + [f] == [a, b, c, d, e, f];
    assert SumOf([]) == 0 by { NoSum(); }
  }

  lemma NoSum()
    ensures SumOf([]) == 0
  {
  }

  lemma NinesBust()
    ensures Busts([9, 8, 3, 10])
  {
    SumsOf(9, 8, 3, 10, 0, 0);
    hide SumOf;
    assert [9, 8, 3, 10][..2] == [9, 8] && [9, 8, 3, 10][..3] == [9, 8, 3];
  }

  lemma SevensBust()
    ensures Busts([7, 6, 5, 2, 10])
  {
    SumsOf(7, 6, 5, 2, 10, 0);
    hide SumOf;
    var p := [7, 6, 5, 2, 10];
    assert p[..2] == [7, 6] && p[..3] == [7, 6, 5] && p[..4] == [7, 6, 5, 2];
  }

  lemma TensBust()
    ensures Busts([10, 10, 10])
  {
    SumsOf(10, 10, 10, 0, 0, 0);
    hide SumOf;
    assert [10, 10, 10][..2] == [10, 10];
  }

  lemma FoursBust()
    ensures Busts([10, 4, 4, 1, 1, 10])
  {
    SumsOf(10, 4, 4, 1, 1, 10);
    hide SumOf;
    var p := [10, 4, 4, 1, 1, 10];
    assert p[..2] == [10, 4] && p[..3] == [10, 4, 4] && p[..4] == [10, 4, 4, 1] && p[..5] == [10, 4, 4, 1, 1];
  }

  lemma LastStaysBelow()
    ensures StaysBelow([4, 4, 1, 1])
  {
    SumsOf(4, 4, 1, 1, 0, 0);
    hide SumOf;
    var p := [4, 4, 1, 1];
    assert p[..2] == [4, 4] && p[..3] == [4, 4, 1] && p[..4] == p;
  }

  lemma LowPlansExhaust()
    ensures |LowPlans()| == 68
    ensures forall k :: 0 <= k < 67 ==> Busts(LowPlans()[k])
    ensures StaysBelow(LowPlans()[67])
  {
    NinesBust();
    SevensBust();
    TensBust();
    FoursBust();
    LastStaysBelow();
    hide Busts, StaysBelow;
    forall k | 0 <= k < 67 ensures Busts(LowPlans()[k]) {
      if k < 24 {
        assert LowPlans()[k] == [9, 8, 3, 10];
      } else if k < 48 {
        assert LowPlans()[k] == [7, 6, 5, 2, 10];
      } else if k < 56 {
        assert LowPlans()[k] == [10, 10, 10];
      } else {
        assert LowPlans()[k] == [10, 4, 4, 1, 1, 10];
      }
    }
  }

  // ----- The shoe, by low counts -----

  lemma {:induction false} FlatConcat<T>(a: seq<seq<T>>, b: seq<seq<T>>)
    ensures Flat(a + b) == Flat(a) + Flat(b)
  {
    if a == [] {
      assert a + b == b;
    } else {
      assert (a + b)[1..] == a[1..] + b;
      FlatConcat(a[1..], b);
    }
  }

  function Is(a: nat, x: nat): nat { if a == x then 1 else 0 }

  /** How often `x` occurs. */
  function Count(lows: seq<nat>, x: nat): nat {
    if lows == [] then 0 else Count(lows[..|lows| - 1], x) + Is(lows[|lows| - 1], x)
  }

  lemma CountPush(lows: seq<nat>, a: nat, x: nat)
    ensures Count(lows + [a], x) == Count(lows, x) + Is(a, x)
  {
    assert (lows + [a])[..|lows|] == lows;
  }

  lemma {:induction false} CountConcat(a: seq<nat>, b: seq<nat>, x: nat)
    ensures Count(a + b, x) == Count(a, x) + Count(b, x)
    decreases |b|
  {
    if b == [] {
      assert a + b == a;
    } else {
      var n := |b| - 1;
      CountConcat(a, b[..n], x);
      assert (a + b)[..|a + b| - 1] == a + b[..n];
    }
  }

  lemma {:induction false} CountIsMultiset(lows: seq<nat>, x: nat)
    ensures multiset(lows)[x] == Count(lows, x)
    decreases |lows|
  {
    if lows != [] {
      var n := |lows| - 1;
      CountIsMultiset(lows[..n], x);
      assert lows == lows[..n] + [lows[n]];
    }
  }

  lemma {:induction false} FlatCopies(plan: seq<nat>, n: nat, x: nat)
    ensures Count(Flat(Copies(plan, n)), x) == n * Count(plan, x)
  {
    if n > 0 {
      FlatCopies(plan, n - 1, x);
      assert Copies(plan, n)[1..] == Copies(plan, n - 1);
      assert Flat(Copies(plan, n)) == plan + Flat(Copies(plan, n - 1));
      CountConcat(plan, Flat(Copies(plan, n - 1)), x);
      assert n * Count(plan, x) == Count(plan, x) + (n - 1) * Count(plan, x);
    }
  }

  /** The counts of a hand of up to six cards. */
  lemma CountsOf(a: nat, b: nat, c: nat, d: nat, e: nat, f: nat, x: nat)
    ensures Count([a], x) == Is(a, x)
    ensures Count([a, b, c], x) == Is(a, x) + Is(b, x) + Is(c, x)
    ensures Count([a, b, c, d], x) == Is(a, x) + Is(b, x) + Is(c, x) + Is(d, x)
    ensures Count([a, b, c, d, e], x) == Is(a, x) + Is(b, x) + Is(c, x) + Is(d, x) + Is(e, x)
    ensures Count([a, b, c, d, e, f], x) == Is(a, x) + Is(b, x) + Is(c, x) + Is(d, x) + Is(e, x) + Is(f, x)
  {
    hide Is;
    assert Count([], x) == 0;
    hide Count;
    CountPush([], a, x);
    CountPush([a], b, x);
    CountPush([a, b], c, x);
    CountPush([a, b, c], d, x);
    CountPush([a, b, c, d], e, x);
    CountPush([a, b, c, d, e], f, x);
    assert [] + [a] == [a] && [a] + [b] == [a, b] && [a, b] + [c] == [a, b, c] && [a, b, c] + [d] == [a, b, c, d];
    assert [a, b, c, d] + [e] == [a, b, c, d, e] && [a, b, c, d, e] + [f] == [a, b, c, d, e, f];
  }

  lemma CountParts(a: seq<seq<nat>>, b: seq<seq<nat>>, x: nat)
    ensures Count(Flat(a + b), x) == Count(Flat(a), x) + Count(Flat(b), x)
  {
    hide Flat, Count;
    FlatConcat(a, b);
    CountConcat(Flat(a), Flat(b), x);
  }

  lemma CountOne(plan: seq<nat>, x: nat)
    ensures Count(Flat([plan]), x) == Count(plan, x)
  {
    assert [plan][1..] == [];
    assert Flat([plan]) == plan;
  }

  lemma CountNines(x: nat)
    ensures Count([9, 8, 3, 10], x) == Is(9, x) + Is(8, x) + Is(3, x) + Is(10, x)
  {
    CountsOf(9, 8, 3, 10, 0, 0, x);
    hide Count, Is;
  }

  lemma CountSevens(x: nat)
    ensures Count([7, 6, 5, 2, 10], x) == Is(7, x) + Is(6, x) + Is(5, x) + Is(2, x) + Is(10, x)
  {
    CountsOf(7, 6, 5, 2, 10, 0, x);
    hide Count, Is;
  }

  lemma CountTens(x: nat)
    ensures Count([10, 10, 10], x) == Is(10, x) + Is(10, x) + Is(10, x)
  {
    CountsOf(10, 10, 10, 0, 0, 0, x);
    hide Count, Is;
  }

  lemma CountFours(x: nat)
    ensures Count([10, 4, 4, 1, 1, 10], x) == Is(10, x) + Is(4, x) + Is(4, x) + Is(1, x) + Is(1, x) + Is(10, x)
  {
    CountsOf(10, 4, 4, 1, 1, 10, x);
    hide Count, Is;
  }

  lemma CountLast(x: nat)
    ensures Count([4, 4, 1, 1], x) == Is(4, x) + Is(4, x) + Is(1, x) + Is(1, x)
  {
    CountsOf(4, 4, 1, 1, 0, 0, x);
    hide Count, Is;
  }

  /** How often each low count occurs in the hands and the dealer's two tens. */
  lemma CountPlans(x: nat)
    ensures Count(Flat(LowPlans()) + [10, 10], x) == if 1 <= x <= 9 then 24 else if x == 10 then 96 else 0
  {
    hide Count, Flat, Copies, Is;
    CountNines(x);
    CountSevens(x);
    CountTens(x);
    CountFours(x);
    CountLast(x);
    CountGroups([9, 8, 3, 10], [7, 6, 5, 2, 10], [10, 10, 10], [10, 4, 4, 1, 1, 10], [4, 4, 1, 1], x);
    PlansAddUp(x);
    CountTwoMore(Flat(LowPlans()), x);
  }

  lemma CountTwoMore(lows: seq<nat>, x: nat)
    ensures Count(lows + [10, 10], x) == Count(lows, x) + Is(10, x) + Is(10, x)
  {
    hide Count, Is;
    CountPush(lows, 10, x);
    CountPush(lows + [10], 10, x);
    assert lows + [10, 10] == lows + [10] + [10];
  }

  lemma PlansAddUp(x: nat)
    ensures 24 * (Is(9, x) + Is(8, x) + Is(3, x) + Is(10, x))
            + 24 * (Is(7, x) + Is(6, x) + Is(5, x) + Is(2, x) + Is(10, x))
            + 8 * (Is(10, x) + Is(10, x) + Is(10, x))
            + 11 * (Is(10, x) + Is(4, x) + Is(4, x) + Is(1, x) + Is(1, x) + Is(10, x))
            + (Is(4, x) + Is(4, x) + Is(1, x) + Is(1, x)) + Is(10, x) + Is(10, x)
         == if 1 <= x <= 9 then 24 else if x == 10 then 96 else 0
  {
  }

  lemma CountGroups(p: seq<nat>, q: seq<nat>, t: seq<nat>, u: seq<nat>, e: seq<nat>, x: nat)
    ensures Count(Flat(Copies(p, 24) + Copies(q, 24) + Copies(t, 8) + Copies(u, 11) + [e]), x)
         == 24 * Count(p, x) + 24 * Count(q, x) + 8 * Count(t, x) + 11 * Count(u, x) + Count(e, x)
  {
    hide Flat, Copies, Count;
    CountParts(Copies(p, 24) + Copies(q, 24) + Copies(t, 8) + Copies(u, 11), [e], x);
    CountParts(Copies(p, 24) + Copies(q, 24) + Copies(t, 8), Copies(u, 11), x);
    CountParts(Copies(p, 24) + Copies(q, 24), Copies(t, 8), x);
    CountParts(Copies(p, 24), Copies(q, 24), x);
    FlatCopies(p, 24, x);
    FlatCopies(q, 24, x);
    FlatCopies(t, 8, x);
    FlatCopies(u, 11, x);
    CountOne(e, x);
  }

  /** The low counts of the ranks, in rank order. */
  function RankLows(): (lows: seq<nat>)
    ensures |lows| == 13
  {
    seq(13, i => if i < 10 then i + 1 else 10)
  }

  lemma RankLow(i: nat, s: Suit)
    requires i < 13
    ensures Card(s, RANKS[i]).Low() == RankLows()[i]
  {
  }

  lemma {:induction false} CopiesAt(plan: seq<nat>, n: nat, k: nat)
    requires |plan| == 13 && k < 13 * n
    ensures |Flat(Copies(plan, n))| == 13 * n
    ensures Flat(Copies(plan, n))[k] == plan[k % 13]
    decreases n
  {
    assert Copies(plan, n)[1..] == Copies(plan, n - 1);
    assert Flat(Copies(plan, n)) == plan + Flat(Copies(plan, n - 1));
    if n > 1 {
      CopiesAt(plan, n - 1, if k < 13 then 0 else k - 13);
    } else {
      assert Copies(plan, 0) == [];
    }
  }

  lemma DeckLows(deck: seq<Card>)
    requires deck == OneDeck()
    ensures LowsOf(deck) == Flat(Copies(RankLows(), 4))
  {
    hide Flat, Copies, RankLows;
    CopiesAt(RankLows(), 4, 0);
    forall k | 0 <= k < 52 ensures LowsOf(deck)[k] == Flat(Copies(RankLows(), 4))[k] {
      CopiesAt(RankLows(), 4, k);
      assert k / 13 < 4;
      RankLow(k % 13, SUITS[k / 13]);
    }
  }

  lemma {:induction false} RepeatLows(deck: seq<Card>, n: nat, x: nat)
    ensures Count(LowsOf(Repeat(deck, n)), x) == n * Count(LowsOf(deck), x)
  {
    if n > 0 {
      RepeatLows(deck, n - 1, x);
      assert LowsOf(Repeat(deck, n)) == LowsOf(Repeat(deck, n - 1)) + LowsOf(deck);
      CountConcat(LowsOf(Repeat(deck, n - 1)), LowsOf(deck), x);
      assert n * Count(LowsOf(deck), x) == (n - 1) * Count(LowsOf(deck), x) + Count(LowsOf(deck), x);
    }
  }

  lemma CountShoe(x: nat, shoe: seq<Card>)
    requires shoe == Shoe()
    ensures Count(LowsOf(shoe), x) == if 1 <= x <= 9 then 24 else if x == 10 then 96 else 0
  {
    hide LowsOf, OneDeck, Repeat, Flat, Copies, RankLows, Count;
    RepeatLows(OneDeck(), DECK_COUNT, x);
    DeckLows(OneDeck());
    FlatCopies(RankLows(), 4, x);
    CountRanks(x);
  }

  lemma CountRanks(x: nat)
    ensures Count(RankLows(), x) == if 1 <= x <= 9 then 1 else if x == 10 then 4 else 0
  {
    assert RankLows() == [1, 2, 3, 4, 5, 6] + [7, 8, 9, 10, 10, 10] + [10];
    CountsOf(1, 2, 3, 4, 5, 6, x);
    CountsOf(7, 8, 9, 10, 10, 10, x);
    CountsOf(10, 0, 0, 0, 0, 0, x);
    hide RankLows, Count;
    CountConcat([1, 2, 3, 4, 5, 6] + [7, 8, 9, 10, 10, 10], [10], x);
    CountConcat([1, 2, 3, 4, 5, 6], [7, 8, 9, 10, 10, 10], x);
  }

  // ----- Cards for the low counts -----

  /** A card of the pool with the first low count; the others still match. */
  lemma AssignOne(lows: seq<nat>, pool: seq<Card>) returns (i: nat)
    requires lows != [] && multiset(lows) == multiset(LowsOf(pool))
    ensures i < |pool| && pool[i].Low() == lows[0]
    ensures multiset(lows[1..]) == multiset(LowsOf(pool[..i] + pool[i + 1..]))
  {
    assert lows[0] in multiset(LowsOf(pool));
    i :| 0 <= i < |LowsOf(pool)| && LowsOf(pool)[i] == lows[0];
    TakeOut(pool, i);
    hide LowsOf;
    var left := pool[..i] + pool[i + 1..];
    assert lows == [lows[0]] + lows[1..];
    assert multiset(lows) == multiset{lows[0]} + multiset(lows[1..]);
    assert multiset(LowsOf(left)) == multiset(lows) - multiset{lows[0]};
  }

  lemma LowsPrepend(c: Card, cards: seq<Card>)
    ensures LowsOf([c] + cards) == [c.Low()] + LowsOf(cards)
  {
  }

  /** Cards from the pool, one for each low count. */
  lemma {:induction false} Assign(lows: seq<nat>, pool: seq<Card>) returns (cards: seq<Card>)
    requires multiset(lows) == multiset(LowsOf(pool))
    ensures LowsOf(cards) == lows && multiset(cards) == multiset(pool)
    decreases |lows|
  {
    if lows == [] {
      assert |multiset(LowsOf(pool))| == |LowsOf(pool)| == |pool|;
      cards := [];
    } else {
      var i := AssignOne(lows, pool);
      hide LowsOf;
      var rest := Assign(lows[1..], pool[..i] + pool[i + 1..]);
      TakeOut(pool, i);
      cards := [pool[i]] + rest;
      LowsPrepend(pool[i], rest);
    }
  }

  lemma TakeOut(pool: seq<Card>, i: nat)
    requires i < |pool|
    ensures var left := pool[..i] + pool[i + 1..];
      && multiset(pool) == multiset{pool[i]} + multiset(left)
      && multiset(LowsOf(pool)) == multiset{LowsOf(pool)[i]} + multiset(LowsOf(left))
  {
    var left := pool[..i] + pool[i + 1..];
    assert pool == pool[..i] + [pool[i]] + pool[i + 1..];
    var lows := LowsOf(pool);
    assert lows == lows[..i] + [lows[i]] + lows[i + 1..];
    assert LowsOf(left) == lows[..i] + lows[i + 1..];
  }

  /** Cards cut into hands as their low counts are. */
  lemma {:induction false} Cut(plans: seq<seq<nat>>, cards: seq<Card>) returns (hands: seq<seq<Card>>)
    requires LowsOf(cards) == Flat(plans)
    ensures |hands| == |plans| && Flat(hands) == cards
    ensures forall k :: 0 <= k < |plans| ==> LowsOf(hands[k]) == plans[k]
    decreases |plans|
  {
    if plans == [] {
      assert |cards| == |LowsOf(cards)| == 0;
      hands := [];
    } else {
      var n := |plans[0]|;
      assert |cards| == |LowsOf(cards)| == n + |Flat(plans[1..])|;
      assert LowsOf(cards[..n]) == LowsOf(cards)[..n] == plans[0];
      assert LowsOf(cards[n..]) == LowsOf(cards)[n..] == Flat(plans[1..]);
      var rest := Cut(plans[1..], cards[n..]);
      hands := [cards[..n]] + rest;
      assert hands[1..] == rest && cards == cards[..n] + cards[n..];
    }
  }

  lemma LowsCut(cards: seq<Card>, n: nat, lows: seq<nat>)
    requires LowsOf(cards) == lows && n <= |lows|
    ensures |cards| == |lows| && LowsOf(cards[..n]) == lows[..n]
  {
    assert |cards| == |LowsOf(cards)|;
  }

  /** Hands and dealer's cards from a pool that has their low counts. */
  lemma HandsFrom(plans: seq<seq<nat>>, tens: seq<nat>, pool: seq<Card>)
    returns (hands: seq<seq<Card>>, dealer: seq<Card>)
    requires multiset(Flat(plans) + tens) == multiset(LowsOf(pool))
    ensures |hands| == |plans| && |dealer| == |tens|
    ensures forall k :: 0 <= k < |plans| ==> LowsOf(hands[k]) == plans[k]
    ensures multiset(Flat(hands)) + multiset(dealer) == multiset(pool)
  {
    hide Flat, LowsOf;
    var lows := Flat(plans) + tens;
    var cards := Assign(lows, pool);
    var n := |Flat(plans)|;
    LowsCut(cards, n, lows);
    assert lows[..n] == Flat(plans);
    hands := Cut(plans, cards[..n]);
    dealer := cards[n..];
    assert cards == cards[..n] + cards[n..];
  }

  lemma SameCounts(lows: seq<nat>, shoe: seq<Card>)
    requires shoe == Shoe() && lows == Flat(LowPlans()) + [10, 10]
    ensures multiset(lows) == multiset(LowsOf(shoe))
  {
    hide Shoe, LowPlans, Flat, Count, LowsOf;
    forall x: nat ensures multiset(lows)[x] == multiset(LowsOf(shoe))[x] {
      CountPlans(x);
      CountShoe(x, shoe);
      CountIsMultiset(lows, x);
      CountIsMultiset(LowsOf(shoe), x);
    }
  }

  /** Sixty-eight hands and the dealer's two cards that use up the shoe. */
  lemma ShoeOfHands() returns (plans: seq<seq<Card>>, dealer: seq<Card>)
    ensures Exhausting(plans) && |plans| == 68 && |dealer| == 2
    ensures multiset(Flat(plans)) + multiset(dealer) == multiset(Shoe())
  {
    LowPlansExhaust();
    hide Shoe, LowPlans, Flat, Busts, StaysBelow, LowsOf;
    SameCounts(Flat(LowPlans()) + [10, 10], Shoe());
    plans, dealer := HandsFrom(LowPlans(), [10, 10], Shoe());
  }

  /**
    The exact limit: no hook throws in any run of a room, that is, no pop ever finds the deck
    empty, if and only if the room has at most 67 seats.
  */
  lemma DeckSufficesExactly(maxPlayers: int, turnIndex: Option<int>)
    ensures (forall steps :: !Run(maxPlayers, turnIndex, steps).game.crashed) <==> maxPlayers <= SAFE_SEATS
  {
    hide Run, Shoe, Exhausting, Flat;
    if maxPlayers <= SAFE_SEATS {
      forall steps ensures !Run(maxPlayers, turnIndex, steps).game.crashed {
        DeckNeverRunsOut(maxPlayers, turnIndex, steps);
      }
    } else {
      var plans, dealer := ShoeOfHands();
      var steps := PlansRunOut(maxPlayers, turnIndex, plans, dealer);
    }
  }
}
