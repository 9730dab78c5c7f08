/** Sums over the seated players: chips, bets, and the cards in their hands. */
module Tally {
  import opened Prelude
  import opened Cards
  import opened Blackjack

  datatype SeatMeasure = Chips | Bets | Hands(m: Measure)

  function SeatWeight(w: SeatMeasure, seat: Seat): int {
    match w
    case Chips => seat.chips
    case Bets => seat.bet
    case Hands(m) => Weigh(m, seat.hand)
  }

  function Sum(w: SeatMeasure, players: map<PlayerId, Seat>, order: seq<PlayerId>): int {
    if order == [] then 0
    else (if order[0] in players then SeatWeight(w, players[order[0]]) else 0) + Sum(w, players, order[1..])
  }

  ghost predicate SameWeights(w: SeatMeasure, a: map<PlayerId, Seat>, b: map<PlayerId, Seat>, order: seq<PlayerId>) {
    forall p :: p in order ==>
      p in a && p in b && SeatWeight(w, a[p]) == SeatWeight(w, b[p])
  }

  lemma {:induction false} SumFrame(w: SeatMeasure, a: map<PlayerId, Seat>, b: map<PlayerId, Seat>,
                                      order: seq<PlayerId>)
    requires SameWeights(w, a, b, order)
    ensures Sum(w, a, order) == Sum(w, b, order)
  {
    if order != [] {
      assert order[0] in order;
      assert forall p :: p in order[1..] ==> p in order;
      SumFrame(w, a, b, order[1..]);
    }
  }

  lemma {:induction false} SumConcat(w: SeatMeasure, players: map<PlayerId, Seat>, a: seq<PlayerId>, b: seq<PlayerId>)
    ensures Sum(w, players, a + b) == Sum(w, players, a) + Sum(w, players, b)
  {
    if a == [] {
      assert a + b == b;
    } else {
      assert (a + b)[1..] == a[1..] + b;
      SumConcat(w, players, a[1..], b);
    }
  }

  /** Singling out one position of the order. */
  lemma SumAround(w: SeatMeasure, players: map<PlayerId, Seat>, order: seq<PlayerId>, i: nat)
    requires i < |order| && order[i] in players
    ensures Sum(w, players, order)
         == Sum(w, players, order[..i]) + SeatWeight(w, players[order[i]]) + Sum(w, players, order[i + 1..])
  {
    assert order == order[..i] + ([order[i]] + order[i + 1..]);
    SumConcat(w, players, order[..i], [order[i]] + order[i + 1..]);
    assert ([order[i]] + order[i + 1..])[1..] == order[i + 1..];
  }

  /** Changing one seat changes a sum by the difference of that seat's weights. */
  lemma SumUpdate(w: SeatMeasure, players: map<PlayerId, Seat>, order: seq<PlayerId>, p: PlayerId, seat: Seat)
    requires NoDup(order) && p in order && AllSeated(players, order)
    ensures Sum(w, players[p := seat], order)
         == Sum(w, players, order) - SeatWeight(w, players[p]) + SeatWeight(w, seat)
  {
    var i :| 0 <= i < |order| && order[i] == p;
    var after := players[p := seat];
    assert p !in order[..i] && p !in order[i + 1..];
    assert forall q :: q in order[..i] || q in order[i + 1..] ==> q in order;
    SumAround(w, players, order, i);
    SumAround(w, after, order, i);
    SumFrame(w, players, after, order[..i]);
    SumFrame(w, players, after, order[i + 1..]);
  }

  /** A player leaves: the sum loses that seat. */
  lemma SumRemove(w: SeatMeasure, players: map<PlayerId, Seat>, order: seq<PlayerId>, i: nat)
    requires NoDup(order) && i < |order| && AllSeated(players, order)
    ensures Sum(w, players - {order[i]}, Without(order, i))
         == Sum(w, players, order) - SeatWeight(w, players[order[i]])
  {
    var p := order[i];
    assert order[i] in order;
    assert forall q :: q in order[..i] || q in order[i + 1..] ==> q in order && q != p;
    SumAround(w, players, order, i);
    SumConcat(w, players - {p}, order[..i], order[i + 1..]);
    SumFrame(w, players, players - {p}, order[..i]);
    SumFrame(w, players, players - {p}, order[i + 1..]);
  }

  /** A new player joins at the end of the order. */
  lemma SumJoin(w: SeatMeasure, players: map<PlayerId, Seat>, order: seq<PlayerId>, p: PlayerId, seat: Seat)
    requires AllSeated(players, order) && p !in order
    ensures Sum(w, players[p := seat], order + [p]) == Sum(w, players, order) + SeatWeight(w, seat)
  {
    SumConcat(w, players[p := seat], order, [p]);
    assert [p][1..] == [];
    SumFrame(w, players, players[p := seat], order);
  }

  lemma OneMore(x: int, n: nat)
    ensures x * (n + 1) == x + x * n
  {
  }

  lemma {:induction false} SumBounds(w: SeatMeasure, players: map<PlayerId, Seat>, order: seq<PlayerId>,
                                       lo: int, hi: int)
    requires AllSeated(players, order)
    requires forall p :: p in order ==> lo <= SeatWeight(w, players[p]) <= hi
    ensures lo * |order| <= Sum(w, players, order) <= hi * |order|
  {
    if order != [] {
      assert order[0] in order;
      var rest := order[1..];
      assert forall p :: p in rest ==> p in order;
      SumBounds(w, players, rest, lo, hi);
      OneMore(lo, |rest|);
      OneMore(hi, |rest|);
    }
  }

  /** All cards held by the seated players, hand after hand. */
  function HandCards(players: map<PlayerId, Seat>, order: seq<PlayerId>): seq<Card> {
    if order == [] then []
    else (if order[0] in players then players[order[0]].hand else []) + HandCards(players, order[1..])
  }

  lemma {:induction false} WeighHandCards(m: Measure, players: map<PlayerId, Seat>, order: seq<PlayerId>)
    ensures Weigh(m, HandCards(players, order)) == Sum(Hands(m), players, order)
  {
    if order != [] {
      var hand := if order[0] in players then players[order[0]].hand else [];
      WeighConcat(m, hand, HandCards(players, order[1..]));
      WeighHandCards(m, players, order[1..]);
    }
  }
}
