/** How large hands get: the dealer's draws and a player's hits. */
module DealerLaws {
  import opened Cards
  import opened Engine
  import opened Blackjack
  import opened TableInvariants

  lemma PushFacts(hand: seq<Card>, c: Card)
    ensures Low(hand + [c]) == Low(hand) + c.Low()
    ensures Aces(hand + [c]) == Aces(hand) + (if c.rank.Ace? then 1 else 0)
    ensures |hand| <= Low(hand) && 2 * |hand| - Aces(hand) <= Low(hand) && Aces(hand) <= |hand|
  {
    WeighPush(LowTotal, hand, c);
    AcesConcat(hand, [c]);
    assert [c][1..] == [];
    LowBounds(hand);
  }

  /** The dealer's first two cards. */
  lemma DealerStarts(hand: seq<Card>)
    requires |hand| == 2
    ensures DealerHandOk(hand)
  {
    LowBounds(hand);
    TwoCards(hand);
  }

  /** Two cards with an ace count at most 11 low, so at most 21. */
  lemma TwoCards(hand: seq<Card>)
    requires |hand| == 2
    ensures 2 <= Low(hand) <= 20 && Value(hand) <= 21
    ensures Aces(hand) > 0 ==> Low(hand) <= 11
  {
    assert hand == [hand[0]] + [hand[1]];
    PushFacts([hand[0]], hand[1]);
    PushFacts([], hand[0]);
    assert [] + [hand[0]] == [hand[0]];
  }

  /** A draw below 17 keeps the shape: the dealer stops by the twelfth card, at 17 to 26. */
  lemma DealerDraws(hand: seq<Card>, c: Card)
    requires DealerHandOk(hand) && Value(hand) < 17
    ensures DealerHandOk(hand + [c])
    ensures |hand| <= 11
  {
    PushFacts(hand, c);
    LowBounds(hand + [c]);
  }

  /** A card for a player who can still act. */
  lemma PlayerDraws(hand: seq<Card>, c: Card)
    requires |hand| >= 2 && Low(hand) <= 20
    ensures 3 <= |hand + [c]| <= 21
    ensures Low(hand + [c]) <= 30
    ensures Value(hand + [c]) < 21 ==> Low(hand + [c]) <= 20
    ensures Low(hand + [c]) > Low(hand)
  {
    PushFacts(hand, c);
  }

  lemma ScheduleTakesSlot(g: Game)
    requires TimersOk(g.timers) && |g.timers.live| < MAX_ACTIVE_TIMERS
    ensures var r := ScheduleDraw(g);
      r.drawPending && TimersOk(r.timers) && |r.timers.live| == |g.timers.live| + 1
  {
    SetTimerTakesOneSlot(g.timers, MAX_ACTIVE_TIMERS);
  }
}
