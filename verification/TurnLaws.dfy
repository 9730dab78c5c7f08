/** Lemmas on advanceTurn and the turn invariant. */
module TurnLaws {
  import opened Cards
  import opened Blackjack
  import opened TableInvariants

  /** advanceTurn touches the index, and on entering the dealer's phase the phase and timers. */
  ghost predicate SameTable(a: Game, b: Game) {
    b == a.(currentPlayerIndex := b.currentPlayerIndex, phase := b.phase, timers := b.timers,
            drawPending := b.drawPending, hist := a.hist.(dealerEntries := b.hist.dealerEntries))
  }

  /** Where advanceTurn stops: at a later player who can act, or at the dealer, entered once. */
  lemma {:induction false} AdvanceStops(g: Game)
    ensures var r := AdvanceTurn(g);
      && SameTable(g, r)
      && r.currentPlayerIndex > g.currentPlayerIndex
      && (r.currentPlayerIndex < |g.turnOrder| ==>
            && r == g.(currentPlayerIndex := r.currentPlayerIndex)
            && var p := g.turnOrder[r.currentPlayerIndex];
               p in g.players ==> Active(g.players[p]))
      && (r.currentPlayerIndex >= |g.turnOrder| ==>
            r == DealerPlay(g.(currentPlayerIndex := r.currentPlayerIndex)))
      && (forall j :: g.currentPlayerIndex < j < r.currentPlayerIndex && j < |g.turnOrder| ==>
            g.turnOrder[j] in g.players && !Active(g.players[g.turnOrder[j]]))
    decreases |g.turnOrder| - g.currentPlayerIndex
  {
    var next := g.(currentPlayerIndex := g.currentPlayerIndex + 1);
    if next.currentPlayerIndex < |g.turnOrder| {
      var p := g.turnOrder[next.currentPlayerIndex];
      if p in g.players && !Active(g.players[p]) {
        AdvanceStops(next);
      }
    }
  }

  lemma AdvanceKeepsTurn(g: Game)
    requires g.phase.Playing?
    requires AheadOk(g, g.currentPlayerIndex + 1)
    ensures TurnOk(AdvanceTurn(g))
  {
    AdvanceStops(g);
    var r := AdvanceTurn(g);
    if r.phase.Playing? && r.turnOrder != [] {
      assert r.currentPlayerIndex < |g.turnOrder|;
      assert r.turnOrder[r.currentPlayerIndex] in r.players;
    }
  }

  /** The skip branch of advanceTurn is taken only for a player who doubled out of turn. */
  lemma SkipUnreachable(g: Game)
    requires AheadOk(g, g.currentPlayerIndex + 1)
    requires g.currentPlayerIndex + 1 < |g.turnOrder|
    requires !DoubleOutOfTurn(g, g.turnOrder[g.currentPlayerIndex + 1])
    ensures AdvanceTurn(g) == g.(currentPlayerIndex := g.currentPlayerIndex + 1)
  {
    hide Value, Weigh, DealerPlay;
    assert Untouched(g.players[g.turnOrder[g.currentPlayerIndex + 1]]);
  }
}
