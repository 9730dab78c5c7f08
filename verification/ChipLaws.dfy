/** The chip ledger: lemmas on bets, departures and the settlement. */
module ChipLaws {
  import opened Prelude
  import opened Cards
  import opened Blackjack
  import opened Tally
  import opened TableInvariants

  /** One seat changes; the sums of chips and bets change by that seat's difference. */
  lemma ChipsSeat(g: Game, p: PlayerId, seat: Seat)
    requires Members(g) && p in g.players
    ensures forall w: SeatMeasure {:trigger Sum(w, g.players[p := seat], g.turnOrder)} :: w.Chips? || w.Bets? ==>
      Sum(w, g.players[p := seat], g.turnOrder)
        == Sum(w, g.players, g.turnOrder) - SeatWeight(w, g.players[p]) + SeatWeight(w, seat)
  {
    SumUpdate(Chips, g.players, g.turnOrder, p, seat);
    SumUpdate(Bets, g.players, g.turnOrder, p, seat);
  }

  lemma ChipsUnseat(g: Game, p: PlayerId)
    requires Members(g) && p in g.players && ChipsOk(g) && SeatsOk(g)
    ensures ChipsOk(Unseat(g, p))
  {
    SumRemove(Chips, g.players, g.turnOrder, IndexOf(g.turnOrder, p));
    SumRemove(Bets, g.players, g.turnOrder, IndexOf(g.turnOrder, p));
  }

  lemma ChipsJoin(g: Game, p: PlayerId)
    requires Members(g) && p !in g.players && ChipsOk(g) && g.phase.Waiting?
    ensures ChipsOk(Join(g, p))
  {
    SumJoin(Chips, g.players, g.turnOrder, p, NEW_SEAT);
    SumJoin(Bets, g.players, g.turnOrder, p, NEW_SEAT);
  }

  /** A whole-table change that moves no chips. */
  lemma ChipsSame(g: Game, r: Game)
    requires ChipsOk(g) && Members(g) && g.players.Keys == r.players.Keys && r.turnOrder == g.turnOrder
    requires forall p :: p in g.players ==>
      r.players[p].chips == g.players[p].chips && r.players[p].bet == g.players[p].bet
    requires r.pot == g.pot && !g.phase.Ended? && !r.phase.Ended?
    requires r.hist.joins == g.hist.joins && r.hist.carried == g.hist.carried
    requires r.hist.forfeited == g.hist.forfeited && r.hist.paid == g.hist.paid
    ensures ChipsOk(r)
  {
    SumFrame(Chips, g.players, r.players, g.turnOrder);
    SumFrame(Bets, g.players, r.players, g.turnOrder);
  }

  // ----- Resolution -----

  /** The rules of the game for one hand, read from the cards alone. */
  function RulesResult(hand: seq<Card>, dealer: seq<Card>): Outcome {
    if Value(hand) > 21 then Lose
    else if Value(dealer) > 21 || Value(hand) > Value(dealer) then Win
    else if Value(hand) == Value(dealer) then Push
    else Lose
  }

  /** What a hand returns of a bet: twice the bet, the bet, or nothing. */
  function Due(hand: seq<Card>, dealer: seq<Card>, bet: int): int {
    if Value(hand) > 21 then 0
    else if Value(dealer) > 21 || Value(hand) > Value(dealer) then 2 * bet
    else if Value(hand) == Value(dealer) then bet
    else 0
  }

  function RulesSeat(seat: Seat, dealer: seq<Card>): Seat {
    seat.(result := RulesResult(seat.hand, dealer), chips := seat.chips + Due(seat.hand, dealer, seat.bet))
  }

  ghost predicate IsWinner(players: map<PlayerId, Seat>, dealer: seq<Card>, p: PlayerId) {
    p in players && RulesResult(players[p].hand, dealer) == Win
  }

  /** The subsequence of winners, in turn order. */
  ghost function WinnersOf(players: map<PlayerId, Seat>, dealer: seq<Card>, order: seq<PlayerId>): seq<PlayerId> {
    if order == [] then []
    else
      var n := |order| - 1;
      WinnersOf(players, dealer, order[..n]) + (if IsWinner(players, dealer, order[n]) then [order[n]] else [])
  }

  ghost predicate FlagsRight(players: map<PlayerId, Seat>) {
    forall p :: p in players ==> (players[p].busted <==> Value(players[p].hand) > 21)
  }

  /** The branches of resolveGame agree with the rules once the bust flag is right. */
  lemma SettleByRules(seat: Seat, dealer: seq<Card>)
    requires seat.busted <==> Value(seat.hand) > 21
    ensures Settle(seat, Value(dealer)) == RulesSeat(seat, dealer)
  {
    hide Value, Weigh;
  }

  lemma WinsByRules(players: map<PlayerId, Seat>, dealer: seq<Card>, p: PlayerId)
    requires p in players
    ensures RulesSeat(players[p], dealer).result == Win <==> IsWinner(players, dealer, p)
  {
    hide Value, Weigh;
  }

  /** The fold over the turn order settles every seat once, by the rules. */
  lemma {:induction false} SettledSeats(players: map<PlayerId, Seat>, order: seq<PlayerId>, dealer: seq<Card>)
    requires NoDup(order) && AllSeated(players, order) && FlagsRight(players)
    ensures var s := SettleAll(players, order, Value(dealer));
      forall p :: p in players ==>
        s.players[p] == if p in order then RulesSeat(players[p], dealer) else players[p]
    decreases |order|
  {
    if order != [] {
      hide Value, Weigh, Settle, RulesSeat;
      var n := |order| - 1;
      var front := order[..n];
      assert order[n] in order && order[n] !in front;
      assert forall q :: q in order <==> q in front || q == order[n];
      SettledSeats(players, front, dealer);
      SettleByRules(players[order[n]], dealer);
    }
  }

  /** The result sent to the room: winners in turn order, every player's chips, and what was paid. */
  lemma {:induction false} SettledReport(players: map<PlayerId, Seat>, order: seq<PlayerId>, dealer: seq<Card>)
    requires NoDup(order) && AllSeated(players, order) && FlagsRight(players)
    ensures var s := SettleAll(players, order, Value(dealer));
      && s.winners == WinnersOf(players, dealer, order)
      && (forall p :: p in s.scores <==> p in order)
      && (forall p :: p in order ==> s.scores[p] == s.players[p].chips)
    decreases |order|
  {
    if order != [] {
      var n := |order| - 1;
      var front := order[..n];
      assert order[n] in order && order[n] !in front;
      assert forall q :: q in order <==> q in front || q == order[n];
      hide Value, Weigh, Settle, RulesSeat, RulesResult;
      SettledReport(players, front, dealer);
      SettledSeats(players, front, dealer);
      SettleByRules(players[order[n]], dealer);
      WinsByRules(players, dealer, order[n]);
    }
  }

  /** The chips in front of the players grow by exactly what the settlement pays. */
  lemma {:induction false} SettledPaid(players: map<PlayerId, Seat>, order: seq<PlayerId>, dealerValue: int)
    requires NoDup(order) && AllSeated(players, order)
    ensures var s := SettleAll(players, order, dealerValue);
      s.paid == Sum(Chips, s.players, order) - Sum(Chips, players, order)
    decreases |order|
  {
    if order != [] {
      var n := |order| - 1;
      var p := order[n];
      var front := order[..n];
      assert p in order && p !in front;
      assert forall q :: q in front ==> q in order;
      SettledPaid(players, front, dealerValue);
      var s := SettleAll(players, front, dealerValue);
      SettleLeavesOthers(players, front, dealerValue, p);
      var after := s.players[p := Settle(s.players[p], dealerValue)];
      assert order == front + [p];
      SumConcat(Chips, after, front, [p]);
      SumConcat(Chips, players, front, [p]);
      assert [p][1..] == [];
      SumFrame(Chips, s.players, after, front);
    }
  }

  lemma {:induction false} SettleLeavesOthers(players: map<PlayerId, Seat>, order: seq<PlayerId>,
                                                dealerValue: int, p: PlayerId)
    requires AllSeated(players, order) && p in players && p !in order
    ensures SettleAll(players, order, dealerValue).players[p] == players[p]
    decreases |order|
  {
    if order != [] {
      var front := order[..|order| - 1];
      assert order[|order| - 1] in order;
      assert forall q :: q in front ==> q in order;
      SettleLeavesOthers(players, front, dealerValue, p);
    }
  }

  /** The winners list is duplicate-free, ordered like the turn order, and complete. */
  lemma {:induction false} WinnersInOrder(players: map<PlayerId, Seat>, dealer: seq<Card>, order: seq<PlayerId>)
    requires NoDup(order)
    ensures var w := WinnersOf(players, dealer, order);
      && NoDup(w)
      && (forall p :: p in w <==> p in order && IsWinner(players, dealer, p))
      && (forall i, j :: 0 <= i < j < |w| ==> IndexOf(order, w[i]) < IndexOf(order, w[j]))
    decreases |order|
  {
    if order != [] {
      var n := |order| - 1;
      var front := order[..n];
      WinnersInOrder(players, dealer, front);
      var w := WinnersOf(players, dealer, order);
      var before := WinnersOf(players, dealer, front);
      assert forall q :: q in order <==> q in front || q == order[n];
      forall q | q in front ensures IndexOf(order, q) == IndexOf(front, q) {
        IndexUnique(order, q, IndexOf(front, q));
      }
      IndexUnique(order, order[n], n);
      forall i, j | 0 <= i < j < |w| ensures IndexOf(order, w[i]) < IndexOf(order, w[j]) {
        assert w[i] in before;
        if j < |before| {
          assert w[j] in before;
        }
      }
    }
  }

  lemma IndexUnique(s: seq<PlayerId>, x: PlayerId, i: nat)
    requires NoDup(s) && i < |s| && s[i] == x
    ensures IndexOf(s, x) == i
  {
    var j := IndexOf(s, x);
    assert j >= 0;
  }
}
