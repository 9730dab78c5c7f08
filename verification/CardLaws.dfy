/** Dealing, and the conservation of cards. */
module CardLaws {
  import opened Prelude
  import opened Cards
  import opened Engine
  import opened Blackjack
  import opened Tally
  import opened TableInvariants

  lemma WeighTop(m: Measure, deck: seq<Card>)
    requires deck != []
    ensures Weigh(m, deck) == Weigh(m, deck[..|deck| - 1]) + CardWeight(m, deck[|deck| - 1])
  {
    assert deck == deck[..|deck| - 1] + [deck[|deck| - 1]];
    WeighPush(m, deck[..|deck| - 1], deck[|deck| - 1]);
  }

  lemma WeighTopTwo(m: Measure, deck: seq<Card>)
    requires |deck| >= 2
    ensures var n := |deck|;
      Weigh(m, deck) == Weigh(m, deck[..n - 2]) + Weigh(m, [deck[n - 1], deck[n - 2]])
  {
    var n := |deck|;
    WeighTop(m, deck);
    WeighTop(m, deck[..n - 1]);
    assert deck[..n - 1][..n - 2] == deck[..n - 2];
    assert [deck[n - 1], deck[n - 2]] == [deck[n - 1]] + [deck[n - 2]];
    WeighPush(m, [deck[n - 1]], deck[n - 2]);
    WeighPush(m, [], deck[n - 1]);
    assert [] + [deck[n - 1]] == [deck[n - 1]];
  }

  /** A card moves from the top of the deck into a hand: every measure of the piles is kept. */
  lemma PileTake(g: Game, m: Measure, p: PlayerId, seat: Seat)
    requires Members(g) && p in g.players && g.deck != []
    requires seat.hand == g.players[p].hand + [g.deck[|g.deck| - 1]]
    ensures Pile(g.(deck := g.deck[..|g.deck| - 1], players := g.players[p := seat]), m) == Pile(g, m)
  {
    WeighTop(m, g.deck);
    WeighPush(m, g.players[p].hand, g.deck[|g.deck| - 1]);
    SumUpdate(Hands(m), g.players, g.turnOrder, p, seat);
  }

  lemma PileSameHand(g: Game, m: Measure, p: PlayerId, seat: Seat)
    requires Members(g) && p in g.players
    requires seat.hand == g.players[p].hand
    ensures Pile(g.(players := g.players[p := seat]), m) == Pile(g, m)
  {
    SumUpdate(Hands(m), g.players, g.turnOrder, p, seat);
  }

  /** The leaver's hand goes to the discard pile. */
  lemma PileUnseat(g: Game, m: Measure, p: PlayerId)
    requires Members(g) && p in g.players
    ensures Pile(Unseat(g, p), m) == Pile(g, m)
  {
    SumRemove(Hands(m), g.players, g.turnOrder, IndexOf(g.turnOrder, p));
    WeighConcat(m, g.hist.discard, g.players[p].hand);
  }

  /** The cards that the k-th player from the start of a deal gets: two from the top, after 2k others. */
  function DealtTo(deck: seq<Card>, k: nat): seq<Card>
    requires 2 * k + 2 <= |deck|
  {
    [deck[|deck| - 1 - 2 * k], deck[|deck| - 2 - 2 * k]]
  }

  lemma OrderStep(players: map<PlayerId, Seat>, order: seq<PlayerId>)
    requires order != [] && NoDup(order) && AllSeated(players, order)
    ensures order[0] in players && AllSeated(players, order[1..]) && NoDup(order[1..]) && order[0] !in order[1..]
  {
    assert order[0] in order;
    assert forall q :: q in order[1..] ==> q in order;
  }

  /** The recursion of a deal, one player at a time. */
  lemma DealStep(players: map<PlayerId, Seat>, deck: seq<Card>, order: seq<PlayerId>)
    requires order != [] && NoDup(order) && AllSeated(players, order) && |deck| >= 2 * |order|
    ensures order[0] in players && AllSeated(players, order[1..]) && NoDup(order[1..]) && order[0] !in order[1..]
    ensures var next := players[order[0] := players[order[0]].(hand := DealtTo(deck, 0))];
      DealHands(players, deck, order) == DealHands(next, deck[..|deck| - 2], order[1..])
  {
    OrderStep(players, order);
    hide NoDup, Weigh;
  }

  lemma {:induction false} DealLeavesOthers(players: map<PlayerId, Seat>, deck: seq<Card>,
                                              order: seq<PlayerId>, p: PlayerId)
    requires NoDup(order) && AllSeated(players, order) && |deck| >= 2 * |order|
    requires p in players && p !in order
    ensures DealHands(players, deck, order).0[p] == players[p]
    ensures DealHands(players, deck, order).1 == deck[..|deck| - 2 * |order|]
    decreases |order|
  {
    if order != [] {
      DealStep(players, deck, order);
      hide DealHands;
      var next := players[order[0] := players[order[0]].(hand := DealtTo(deck, 0))];
      DealLeavesOthers(next, deck[..|deck| - 2], order[1..], p);
    }
  }

  /** The cards left after a deal: the deck without two from the top for each player. */
  lemma {:induction false} DealRest(players: map<PlayerId, Seat>, deck: seq<Card>, order: seq<PlayerId>)
    requires NoDup(order) && AllSeated(players, order) && |deck| >= 2 * |order|
    ensures DealHands(players, deck, order).1 == deck[..|deck| - 2 * |order|]
    decreases |order|
  {
    if order != [] {
      DealStep(players, deck, order);
      hide DealHands;
      var next := players[order[0] := players[order[0]].(hand := DealtTo(deck, 0))];
      DealRest(next, deck[..|deck| - 2], order[1..]);
    }
  }

  /** Dealing gives the k-th player of a duplicate-free order the cards at its place in the deck. */
  lemma {:induction false} DealsInOrder(players: map<PlayerId, Seat>, deck: seq<Card>, order: seq<PlayerId>, k: nat)
    requires NoDup(order) && AllSeated(players, order) && |deck| >= 2 * |order| && k < |order|
    ensures order[k] in players
    ensures DealHands(players, deck, order).0[order[k]] == players[order[k]].(hand := DealtTo(deck, k))
    decreases |order|
  {
    DealStep(players, deck, order);
    hide DealHands;
    var p, rest := order[0], order[1..];
    var next := players[p := players[p].(hand := DealtTo(deck, 0))];
    if k == 0 {
      DealLeavesOthers(next, deck[..|deck| - 2], rest, p);
    } else {
      assert rest[k - 1] == order[k] && order[k] != p;
      DealsInOrder(next, deck[..|deck| - 2], rest, k - 1);
    }
  }

  lemma {:induction false} DealWeighs(m: Measure, players: map<PlayerId, Seat>, deck: seq<Card>,
                                      order: seq<PlayerId>, k: nat)
    requires NoDup(order) && AllSeated(players, order) && k <= |order| && |deck| >= 2 * (|order| - k)
    requires forall j :: k <= j < |order| ==> players[order[j]].hand == []
    ensures AllSeated(players, order[k..])
    ensures var (dealt, rest) := DealHands(players, deck, order[k..]);
      Sum(Hands(m), dealt, order) + Weigh(m, rest) == Sum(Hands(m), players, order) + Weigh(m, deck)
    decreases |order| - k
  {
    assert forall p :: p in order[k..] ==> p in order;
    if k < |order| {
      assert Weigh(m, []) == 0;
      hide Weigh, Sum, DealHands;
      var p := order[k];
      assert p in order && order[k..][0] == p && order[k..][1..] == order[k + 1..];
      DealStep(players, deck, order[k..]);
      var seat := players[p].(hand := DealtTo(deck, 0));
      SumUpdate(Hands(m), players, order, p, seat);
      WeighTopTwo(m, deck);
      DealWeighs(m, players[p := seat], deck[..|deck| - 2], order, k + 1);
    }
  }

  lemma PileDeal(g: Game, m: Measure)
    requires Members(g) && !DealCards(g).crashed && !g.crashed
    requires g.dealerHand == []
    requires forall p :: p in g.players ==> g.players[p].hand == []
    ensures Pile(DealCards(g), m) == Pile(g, m)
  {
    hide Sum, DealHands, AdvanceTurn;
    assert g.turnOrder[0..] == g.turnOrder;
    assert forall j :: 0 <= j < |g.turnOrder| ==> g.turnOrder[j] in g.turnOrder;
    DealWeighs(m, g.players, g.deck, g.turnOrder, 0);
    var (dealt, deck) := DealHands(g.players, g.deck, g.turnOrder);
    WeighTopTwo(m, deck);
    var r := DealCards(g);
    assert r.players == dealt && r.deck == deck[..|deck| - 2] && r.turnOrder == g.turnOrder;
    assert r.dealerHand == [deck[|deck| - 1], deck[|deck| - 2]] && r.hist == g.hist;
  }

  /** Any order of the shoe weighs what the shoe does. */
  lemma WeighShuffled(m: Measure, shoe: seq<Card>, clock: seq<int>)
    requires shoe == Shoe()
    ensures Weigh(m, Shuffled(shoe, clock)) == ShoeWeight(m)
  {
    hide Weigh, Shoe, ShuffledFrom;
    ShufflePermutes(shoe, |shoe| - 1, clock);
    WeighPermutation(m, Shuffled(shoe, clock), shoe);
    WeighShoe(m);
  }

  lemma PileStart(g: Game, m: Measure, clock: seq<int>)
    requires SeatsOk(g) && Members(g) && g.phase.Waiting? && g.dealerHand == [] && g.hist.discard == []
    ensures Pile(Start(g, clock), m) == ShoeWeight(m)
  {
    hide Shoe, Shuffled, ShuffledFrom, Sum;
    WeighShuffled(m, Shoe(), clock);
    SumBounds(Hands(m), g.players, g.turnOrder, 0, 0);
  }

  /** The dealer takes a card. */
  lemma PileDraw(g: Game, m: Measure)
    requires g.deck != []
    ensures var n := |g.deck| - 1;
      Pile(g.(dealerHand := g.dealerHand + [g.deck[n]], deck := g.deck[..n]), m) == Pile(g, m)
  {
    WeighTop(m, g.deck);
    WeighPush(m, g.dealerHand, g.deck[|g.deck| - 1]);
  }

  /** The piles of a table, one after another. */
  function AllCards(g: Game): seq<Card> {
    g.deck + HandCards(g.players, g.turnOrder) + g.dealerHand + g.hist.discard
  }

  lemma WeighAllCards(g: Game, m: Measure)
    ensures Weigh(m, AllCards(g)) == Pile(g, m)
  {
    WeighHandCards(m, g.players, g.turnOrder);
    WeighConcat(m, g.deck, HandCards(g.players, g.turnOrder));
    WeighConcat(m, g.deck + HandCards(g.players, g.turnOrder), g.dealerHand);
    WeighConcat(m, g.deck + HandCards(g.players, g.turnOrder) + g.dealerHand, g.hist.discard);
  }

  /**
    Card conservation: once the game has started, the deck, the hands, the dealer's hand and the
    leavers' cards are together, as a multiset, exactly six standard decks.
  */
  lemma CardsConserved(g: Game)
    requires CardsOk(g) && !g.phase.Waiting?
    ensures multiset(AllCards(g)) == multiset(Shoe())
    ensures forall c: Card :: multiset(AllCards(g))[c] == 6
  {
    var shoe := Shoe();
    var all := AllCards(g);
    forall c: Card ensures multiset(all)[c] == 6 && multiset(shoe)[c] == 6 {
      WeighAllCards(g, CopiesOf(c));
      WeighCopies(c, all);
      WeighShoe(CopiesOf(c));
      WeighCopies(c, shoe);
    }
    assert multiset(all) == multiset(shoe);
  }
}
