/**
  Cards, hands and card totals of the blackjack script.

  A card's face value is a function of its rank; an ace carries 11 and may be
  counted as 1.  `Value` is the closed form of the value loop, and `HandValueOptimal`
  relates it to the rules of the game: every ace is freely worth 1 or 11.
*/
module Cards {
  import opened Prelude

  datatype Suit = Hearts | Diamonds | Clubs | Spades

  type Pips = n: nat | 2 <= n <= 10 witness 2

  datatype Rank = Ace | Pip(n: Pips) | Jack | Queen | King

  datatype Card = Card(suit: Suit, rank: Rank) {
    /** The `value` field that createDeck stores with the card. */
    function Face(): (v: nat)
      ensures 2 <= v <= 11
    {
      match rank
      case Ace => 11
      case Pip(n) => n
      case _ => 10
    }

    /** The least the card can count for. */
    function Low(): (v: nat)
      ensures 1 <= v <= 10
    {
      if rank.Ace? then 1 else Face()
    }
  }

  const SUITS: seq<Suit> := [Hearts, Diamonds, Clubs, Spades]

  const RANKS: seq<Rank> :=
    [Ace, Pip(2), Pip(3), Pip(4), Pip(5), Pip(6), Pip(7), Pip(8), Pip(9), Pip(10), Jack, Queen, King]

  const DECK_COUNT: nat := 6

  // ----- Weighing cards -----

  /** What a pile of cards is weighed by: copies of one card, or the total with every ace as 1. */
  datatype Measure = CopiesOf(card: Card) | LowTotal

  function CardWeight(m: Measure, c: Card): nat {
    match m
    case CopiesOf(card) => if c == card then 1 else 0
    case LowTotal => c.Low()
  }

  function Weigh(m: Measure, cards: seq<Card>): nat {
    if cards == [] then 0 else CardWeight(m, cards[0]) + Weigh(m, cards[1..])
  }

  lemma {:induction false} WeighConcat(m: Measure, a: seq<Card>, b: seq<Card>)
    ensures Weigh(m, a + b) == Weigh(m, a) + Weigh(m, b)
  {
    if a == [] {
      assert a + b == b;
    } else {
      assert (a + b)[1..] == a[1..] + b;
      WeighConcat(m, a[1..], b);
    }
  }

  lemma WeighPush(m: Measure, cards: seq<Card>, c: Card)
    ensures Weigh(m, cards + [c]) == Weigh(m, cards) + CardWeight(m, c)
  {
    WeighConcat(m, cards, [c]);
    assert [c][1..] == [];
  }

  /** Weighing by copies is the multiset's own count. */
  lemma {:induction false} WeighCopies(c: Card, cards: seq<Card>)
    ensures Weigh(CopiesOf(c), cards) == multiset(cards)[c]
  {
    if cards != [] {
      assert cards == [cards[0]] + cards[1..];
      WeighCopies(c, cards[1..]);
    }
  }

  lemma WeighTakeOut(m: Measure, cards: seq<Card>, i: nat)
    requires i < |cards|
    ensures Weigh(m, cards) == CardWeight(m, cards[i]) + Weigh(m, cards[..i] + cards[i + 1..])
    ensures multiset(cards[..i] + cards[i + 1..]) == multiset(cards) - multiset{cards[i]}
  {
    assert cards == cards[..i] + ([cards[i]] + cards[i + 1..]);
    WeighConcat(m, cards[..i], cards[i + 1..]);
    WeighConcat(m, cards[..i], [cards[i]] + cards[i + 1..]);
  }

  /** Every measure depends on the multiset of cards only. */
  lemma {:induction false} WeighPermutation(m: Measure, a: seq<Card>, b: seq<Card>)
    requires multiset(a) == multiset(b)
    ensures Weigh(m, a) == Weigh(m, b)
    decreases |a|
  {
    if a == [] {
      assert |b| == |multiset(b)| == 0;
    } else {
      assert a[0] in multiset(b);
      var i :| 0 <= i < |b| && b[i] == a[0];
      WeighTakeOut(m, a, 0);
      WeighTakeOut(m, b, i);
      WeighPermutation(m, a[..0] + a[1..], b[..i] + b[i + 1..]);
    }
  }

  // ----- Hand values -----

  function Low(hand: seq<Card>): nat { Weigh(LowTotal, hand) }

  function Aces(hand: seq<Card>): nat {
    if hand == [] then 0 else (if hand[0].rank.Ace? then 1 else 0) + Aces(hand[1..])
  }

  lemma {:induction false} AcesConcat(a: seq<Card>, b: seq<Card>)
    ensures Aces(a + b) == Aces(a) + Aces(b)
  {
    if a == [] {
      assert a + b == b;
    } else {
      assert (a + b)[1..] == a[1..] + b;
      AcesConcat(a[1..], b);
    }
  }

  /** Every card counts at least 1, and at least 2 unless it is an ace. */
  lemma {:induction false} LowBounds(hand: seq<Card>)
    ensures Aces(hand) <= |hand|
    ensures 2 * |hand| - Aces(hand) <= Low(hand) <= 10 * |hand|
  {
    if hand != [] {
      LowBounds(hand[1..]);
    }
  }

  /** A hand's value: one ace counts 11 when that does not take the hand over 21. */
  function Value(hand: seq<Card>): nat {
    if Aces(hand) > 0 && Low(hand) <= 11 then Low(hand) + 10 else Low(hand)
  }

  /** The two loops of handValue compute `Value`. */
  method HandValue(hand: seq<Card>) returns (total: int)
    ensures total == Value(hand)
  {
    total := 0;
    var aces := 0;
    for k := 0 to |hand|
      invariant aces == Aces(hand[..k])
      invariant total == Low(hand[..k]) + 10 * aces
    {
      assert hand[..k + 1] == hand[..k] + [hand[k]];
      WeighPush(LowTotal, hand[..k], hand[k]);
      AcesConcat(hand[..k], [hand[k]]);
      total := total + hand[k].Face();
      if hand[k].rank == Ace {
        aces := aces + 1;
      }
    }
    assert hand[..|hand|] == hand;
    LowBounds(hand);
    while total > 21 && aces > 0
      invariant 0 <= aces <= Aces(hand)
      invariant total == Low(hand) + 10 * aces
      invariant aces < Aces(hand) ==> total + 10 > 21
    {
      total := total - 10;
      aces := aces - 1;
    }
  }

  /** What a card counts for by the rules of the game: a picture ten, an ace eleven or one. */
  function Worth(rank: Rank, high: bool): nat {
    match rank
    case Ace => if high then 11 else 1
    case Pip(n) => n
    case Jack => 10
    case Queen => 10
    case King => 10
  }

  /** The total of a hand when the aces marked by `high` count 11 and the others 1. */
  function Total(hand: seq<Card>, high: seq<bool>): nat
    requires |hand| == |high|
  {
    if hand == [] then 0
    else Worth(hand[0].rank, high[0]) + Total(hand[1..], high[1..])
  }

  /** How many aces a choice counts as 11. */
  function HighAces(hand: seq<Card>, high: seq<bool>): nat
    requires |hand| == |high|
  {
    if hand == [] then 0
    else (if hand[0].rank.Ace? && high[0] then 1 else 0) + HighAces(hand[1..], high[1..])
  }

  lemma {:induction false} TotalOfChoice(hand: seq<Card>, high: seq<bool>)
    requires |hand| == |high|
    ensures HighAces(hand, high) <= Aces(hand)
    ensures Total(hand, high) == Low(hand) + 10 * HighAces(hand, high)
  {
    if hand != [] {
      TotalOfChoice(hand[1..], high[1..]);
    }
  }

  /** Some choice counts exactly `n` aces as 11, for any `n` up to the number of aces. */
  lemma {:induction false} ChoiceExists(hand: seq<Card>, n: nat) returns (high: seq<bool>)
    requires n <= Aces(hand)
    ensures |high| == |hand|
    ensures HighAces(hand, high) == n
  {
    if hand == [] {
      high := [];
    } else {
      var use := hand[0].rank.Ace? && n > 0;
      var rest := ChoiceExists(hand[1..], if use then n - 1 else n - (if n > Aces(hand[1..]) then 1 else 0));
      high := [use] + rest;
      assert high[1..] == rest;
    }
  }

  /**
    handValue is optimal.  Over all choices of 1 or 11 for each ace it returns the largest
    total not above 21 when some choice stays within 21, and otherwise the total with every
    ace as 1; the total it returns is reached with at most one ace at 11.
  */
  lemma HandValueOptimal(hand: seq<Card>)
    ensures exists high: seq<bool> :: |high| == |hand| && Total(hand, high) == Value(hand) && HighAces(hand, high) <= 1
    ensures forall high: seq<bool> :: |high| == |hand| && Total(hand, high) <= 21 ==>
      Total(hand, high) <= Value(hand) <= 21
    ensures (forall high: seq<bool> :: |high| == |hand| ==> Total(hand, high) > 21) <==> Value(hand) > 21
    ensures Value(hand) > 21 ==> Value(hand) == Low(hand)
  {
    LowBounds(hand);
    hide Total, HighAces, Weigh, Aces;
    var best := ChoiceExists(hand, if Aces(hand) > 0 && Low(hand) <= 11 then 1 else 0);
    TotalOfChoice(hand, best);
    forall high: seq<bool> | |high| == |hand|
      ensures Total(hand, high) <= 21 ==> Total(hand, high) <= Value(hand) <= 21
    {
      TotalOfChoice(hand, high);
    }
  }

  lemma {:induction false} AcesAreCopies(hand: seq<Card>)
    ensures Aces(hand)
         == Weigh(CopiesOf(Card(Hearts, Ace)), hand) + Weigh(CopiesOf(Card(Diamonds, Ace)), hand)
          + Weigh(CopiesOf(Card(Clubs, Ace)), hand) + Weigh(CopiesOf(Card(Spades, Ace)), hand)
  {
    if hand != [] {
      AcesAreCopies(hand[1..]);
      match hand[0].suit
      case Hearts =>
      case Diamonds =>
      case Clubs =>
      case Spades =>
    }
  }

  /** The value of a hand depends on the multiset of its cards only. */
  lemma HandValuePermutation(a: seq<Card>, b: seq<Card>)
    requires multiset(a) == multiset(b)
    ensures Value(a) == Value(b)
  {
    WeighPermutation(LowTotal, a, b);
    AcesAreCopies(a);
    AcesAreCopies(b);
    forall s: Suit ensures Weigh(CopiesOf(Card(s, Ace)), a) == Weigh(CopiesOf(Card(s, Ace)), b) {
      WeighPermutation(CopiesOf(Card(s, Ace)), a, b);
    }
  }

  // ----- Decks -----

  /** One standard deck, suit by suit in rank order. */
  function OneDeck(): (deck: seq<Card>)
    ensures |deck| == 52
  {
    seq(52, k requires 0 <= k < 52 => Card(SUITS[k / 13], RANKS[k % 13]))
  }

  method CreateDeck() returns (deck: seq<Card>)
    ensures deck == OneDeck()
  {
    deck := [];
    for i := 0 to |SUITS|
      invariant deck == OneDeck()[..13 * i]
    {
      for j := 0 to |RANKS|
        invariant deck == OneDeck()[..13 * i + j]
      {
        assert (13 * i + j) / 13 == i && (13 * i + j) % 13 == j;
        deck := deck + [Card(SUITS[i], RANKS[j])];
      }
    }
  }

  function RankIndex(r: Rank): (i: nat)
    ensures i < 13 && RANKS[i] == r
  {
    match r
    case Ace => 0
    case Pip(n) => n - 1
    case Jack => 10
    case Queen => 11
    case King => 12
  }

  function SuitIndex(s: Suit): (i: nat)
    ensures i < 4 && SUITS[i] == s
  {
    match s case Hearts => 0 case Diamonds => 1 case Clubs => 2 case Spades => 3
  }

  /** Every suit and rank occurs exactly once in a deck. */
  lemma DeckIsStandard(c: Card)
    ensures multiset(OneDeck())[c] == 1
  {
    var deck := OneDeck();
    forall k | 0 <= k < 52 ensures SuitIndex(deck[k].suit) == k / 13 && RankIndex(deck[k].rank) == k % 13 {
    }
    assert NoDup(deck);
    var at := 13 * SuitIndex(c.suit) + RankIndex(c.rank);
    assert at / 13 == SuitIndex(c.suit) && at % 13 == RankIndex(c.rank);
    assert deck[at] == c;
    NoDupCount(deck, c);
  }

  function Repeat(deck: seq<Card>, n: nat): seq<Card> {
    if n == 0 then [] else Repeat(deck, n - 1) + deck
  }

  /** The six decks that onGameStart concatenates before shuffling. */
  function Shoe(): seq<Card> { Repeat(OneDeck(), DECK_COUNT) }

  method BuildShoe() returns (deck: seq<Card>)
    ensures deck == Shoe()
  {
    deck := [];
    for i := 0 to DECK_COUNT
      invariant deck == Repeat(OneDeck(), i)
    {
      var one := CreateDeck();
      deck := deck + one;
    }
  }

  lemma {:induction false} WeighRepeat(m: Measure, deck: seq<Card>, n: nat)
    ensures Weigh(m, Repeat(deck, n)) == n * Weigh(m, deck)
  {
    if n > 0 {
      hide Weigh;
      WeighRepeat(m, deck, n - 1);
      WeighConcat(m, Repeat(deck, n - 1), deck);
      assert Repeat(deck, n) == Repeat(deck, n - 1) + deck;
      assert n * Weigh(m, deck) == (n - 1) * Weigh(m, deck) + Weigh(m, deck);
    }
  }

  /** The low total of the first `n` ranks. */
  function LowOfRanks(n: nat): nat
    requires n <= 13
  {
    if n == 0 then 0 else LowOfRanks(n - 1) + Card(Hearts, RANKS[n - 1]).Low()
  }

  /** One step of counting through the deck: position and rank after `k` cards. */
  lemma NextPosition(k: nat)
    ensures k % 13 == 12 ==> (k + 1) / 13 == k / 13 + 1 && (k + 1) % 13 == 0
    ensures k % 13 < 12 ==> (k + 1) / 13 == k / 13 && (k + 1) % 13 == k % 13 + 1
  {
  }

  /** Counting one card further. */
  lemma LowStep(k: nat)
    ensures 85 * (k / 13) + LowOfRanks(k % 13 + 1) == 85 * ((k + 1) / 13) + LowOfRanks((k + 1) % 13)
  {
    LowOfAllRanks();
    NextPosition(k);
    assert LowOfRanks(0) == 0;
    hide LowOfRanks;
  }

  predicate RanksInTurn(deck: seq<Card>) {
    |deck| == 52 && forall i :: 0 <= i < 52 ==> deck[i].rank == RANKS[i % 13]
  }

  lemma LowOfNothing(deck: seq<Card>)
    ensures Low(deck[..0]) == 85 * (0 / 13) + LowOfRanks(0 % 13)
  {
    assert deck[..0] == [];
  }

  lemma {:induction false} LowOfDeckPrefix(deck: seq<Card>, k: nat)
    requires RanksInTurn(deck) && k <= |deck|
    ensures Low(deck[..k]) == 85 * (k / 13) + LowOfRanks(k % 13)
  {
    hide Low, LowOfRanks, RanksInTurn;
    if k > 0 {
      LowOfDeckPrefix(deck, k - 1);
      LowOfNextCard(deck, k - 1);
      LowStep(k - 1);
    } else {
      LowOfNothing(deck);
    }
  }

  lemma LowOfNextCard(deck: seq<Card>, k: nat)
    requires RanksInTurn(deck) && k < |deck|
    ensures Low(deck[..k + 1]) == Low(deck[..k]) + (LowOfRanks(k % 13 + 1) - LowOfRanks(k % 13))
  {
    assert deck[..k + 1] == deck[..k] + [deck[k]];
    assert deck[k].rank == RANKS[k % 13];
    WeighPush(LowTotal, deck[..k], deck[k]);
    hide Weigh, RanksInTurn;
  }

  lemma LowOfAllRanks()
    ensures LowOfRanks(13) == 85
  {
    assert LowOfRanks(4) == 10;
    assert LowOfRanks(8) == 36;
    assert LowOfRanks(10) == 55;
  }

  /** What the full shoe weighs: six copies of every card, 2040 in low total. */
  function ShoeWeight(m: Measure): nat {
    match m
    case CopiesOf(_) => 6
    case LowTotal => 2040
  }

  lemma WeighDecks(m: Measure, deck: seq<Card>, shoe: seq<Card>)
    requires deck == OneDeck() && shoe == Repeat(deck, DECK_COUNT)
    ensures Weigh(m, shoe) == ShoeWeight(m)
  {
    hide Weigh, Repeat;
    WeighRepeat(m, deck, DECK_COUNT);
    match m
    case CopiesOf(c) =>
      WeighCopies(c, deck);
      DeckIsStandard(c);
    case LowTotal =>
      LowOfDeckPrefix(deck, 52);
      assert deck[..52] == deck;
  }

  lemma WeighShoe(m: Measure)
    ensures Weigh(m, Shoe()) == ShoeWeight(m)
  {
    hide Weigh, Repeat, OneDeck;
    WeighDecks(m, OneDeck(), Shoe());
  }
}
