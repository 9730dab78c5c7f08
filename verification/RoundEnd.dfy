/** When a round can still be finished: exactly while somebody is seated. */
module RoundEnd {
  import opened Prelude
  import opened Blackjack
  import opened TableInvariants
  import opened TurnLaws
  import opened TableLaws
  import opened Room
  import opened RoomLaws
  import opened RoundLaws
  import opened RoundTermination

  /** The measure is used up exactly when the playing phase is over or nobody is seated. */
  lemma RankIsZeroExactly(g: Game, cap: nat)
    requires TableOk(g, cap)
    ensures Rank(g) == 0 <==> !g.phase.Playing? || g.turnOrder == []
  {
    hide TableOk, Rank;
    if !g.phase.Playing? {
      RankOutsidePlaying(g);
    } else if g.turnOrder == [] {
      RankOfNobody(g);
    } else {
      RankOfCurrent(g, cap);
    }
  }

  // ----- Somebody is seated -----

  lemma {:induction false} RunFromAfter(r: Room, first: Step, rest: seq<Step>)
    ensures RunFrom(r, [first] + rest) == RunFrom(Next(r, first), rest)
    decreases |rest|
  {
    hide Next;
    if rest == [] {
      assert [first] + rest == [first] && [first][..0] == [];
      assert RunFrom(r, [first]) == Next(RunFrom(r, []), first);
    } else {
      var n := |rest| - 1;
      RunFromAfter(r, first, rest[..n]);
      assert ([first] + rest)[..n + 1] == [first] + rest[..n];
    }
  }

  /** The current player's stand: the round goes on with a smaller measure, or the dealer plays. */
  lemma StandStep(r: Room, p: PlayerId)
    requires RoomOk(r) && Live(r) && IsCurrent(r.game, p) && r.game.phase.Playing?
    ensures var t := Next(r, Deliver(MsgPlayerAction(p, Stand)));
      && Live(t) && RoomOk(t) && t.game.turnOrder == r.game.turnOrder && Rank(t.game) < Rank(r.game)
      && (t.game.phase.Playing? || t.game.phase.Dealer?)
  {
    hide TableOk, AdvanceTurn, Rank, Next;
    var step := Deliver(MsgPlayerAction(p, Stand));
    var cap := Capacity(r.maxPlayers);
    RoomOkKept(r, step);
    TableTurns(r.game, cap, p);
    PlayOf(r, step);
    StandAlive(r.game, p);
    LiveAfterAction(r, p, Stand);
    TableOkKept(r.game, PlayerAction(p, Stand), cap);
    StandLowersRank(r.game, p, cap);
  }

  lemma TableTurns(g: Game, cap: nat, p: PlayerId)
    requires TableOk(g, cap) && g.phase.Playing? && IsCurrent(g, p)
    ensures p in g.players
  {
    CurrentIsActive(g, p);
  }

  lemma StandAlive(g: Game, p: PlayerId)
    requires g.phase.Playing? && IsCurrent(g, p) && p in g.players && !g.crashed
    ensures var h := HandleStand(g, p);
      !h.crashed && h.turnOrder == g.turnOrder && (h.phase.Playing? || h.phase.Dealer?)
  {
    hide AdvanceTurn;
    AdvanceStops(SetSeat(g, p, g.players[p].(stood := true)));
  }

  lemma LiveAfterAction(r: Room, p: PlayerId, action: Action)
    ensures Next(r, Deliver(MsgPlayerAction(p, action))).destroyed == r.destroyed
  {
    hide Play;
  }

  /** Everybody stands in turn until the dealer plays. */
  lemma {:induction false} StandsToDealer(r: Room) returns (stands: seq<Step>)
    requires RoomOk(r) && Live(r) && r.game.phase.Playing? && r.game.turnOrder != []
    ensures var t := RunFrom(r, stands);
      RoomOk(t) && Live(t) && t.game.phase.Dealer? && t.maxPlayers == r.maxPlayers
    decreases Rank(r.game)
  {
    hide TableOk, Next, Rank;
    var cap := Capacity(r.maxPlayers);
    RankOfCurrent(r.game, cap);
    var p := r.game.turnOrder[r.game.currentPlayerIndex];
    StandStep(r, p);
    var step := Deliver(MsgPlayerAction(p, Stand));
    var t := Next(r, step);
    var rest := [];
    if t.game.phase.Playing? {
      rest := StandsToDealer(t);
    }
    stands := [step] + rest;
    RunFromAfter(r, step, rest);
  }

  lemma {:induction false} RunFromConcat(r: Room, a: seq<Step>, b: seq<Step>)
    ensures RunFrom(r, a + b) == RunFrom(RunFrom(r, a), b)
    decreases |b|
  {
    hide Next;
    if b == [] {
      assert a + b == a;
    } else {
      RunFromConcat(r, a, b[..|b| - 1]);
      assert (a + b)[..|a + b| - 1] == a + b[..|b| - 1];
    }
  }

  /** So from there the round can be played out, unless the deck runs out. */
  lemma CanFinish(r: Room) returns (after: seq<Step>)
    requires RoomOk(r) && Live(r) && r.game.phase.Playing? && r.game.turnOrder != []
    ensures var t := RunFrom(r, after); t.game.phase.Ended? || t.game.crashed
    ensures r.maxPlayers <= SAFE_SEATS ==> RunFrom(r, after).game.phase.Ended?
  {
    hide TableOk, Next, RunFrom;
    var stands := StandsToDealer(r);
    var t := RunFrom(r, stands);
    DrawsCountDown(t, 11);
    RunFromOk(t, Firings(11));
    if t.maxPlayers <= SAFE_SEATS {
      FiringsNeverThrow(t, 11);
    }
    TableDealer(t.game, Capacity(t.maxPlayers));
    DealerHandSize(t.game);
    var late := RunFrom(t, Firings(11));
    if late.game.phase.Dealer? && !late.game.crashed {
      TableDealer(late.game, Capacity(late.maxPlayers));
      DealerHandSize(late.game);
    }
    after := stands + Firings(11);
    RunFromConcat(r, stands, Firings(11));
  }

  // ----- Nobody is seated -----

  /** Everybody left during play: the phase is stuck. */
  ghost predicate Deserted(r: Room) {
    && RoomOk(r)
    && r.game.phase.Playing? && r.game.turnOrder == [] && r.game.players == map[]
    && !r.game.crashed && !r.game.drawPending
    && (!r.destroyed ==> r.players == map[] && r.isPlaying)
  }

  /** The room's side of a step without members: nobody gets in, short of a shutdown. */
  lemma DesertedRoom(r: Room, step: Step)
    requires r.players == map[] && r.isPlaying
    ensures var t := Next(r, step);
      if step == Deliver(MsgShutdown) then t.destroyed
      else t.players == map[] && t.isPlaying && t.destroyed == r.destroyed
    ensures step.Deliver? && step.msg.MsgPlayerJoin? ==>
      Next(r, step).events == r.events + [Error(step.msg.p, 46402)]
  {
    hide Play, Destroy;
  }

  lemma DesertedStays(r: Room, step: Step)
    requires Deserted(r)
    ensures Deserted(Next(r, step))
    ensures step != Deliver(MsgShutdown) ==> Next(r, step).destroyed == r.destroyed
    ensures !r.destroyed && step.Deliver? && step.msg.MsgPlayerJoin? ==>
      Next(r, step).events == r.events + [Error(step.msg.p, 46402)]
  {
    RoomOkKept(r, step);
    hide Next, RoomOk;
    if r.destroyed {
      FrozenGame(r, step);
      DestroyedStays(r, step);
    } else {
      DesertedRoom(r, step);
      PlayOf(r, step);
    }
  }

  lemma {:induction false} DesertedForEver(r: Room, steps: seq<Step>)
    requires Deserted(r)
    ensures Deserted(RunFrom(r, steps))
    ensures !r.destroyed && (forall i :: 0 <= i < |steps| ==> steps[i] != Deliver(MsgShutdown)) ==>
      !RunFrom(r, steps).destroyed
    decreases |steps|
  {
    hide Next, Deserted;
    if steps != [] {
      DesertedForEver(r, steps[..|steps| - 1]);
      DesertedStays(RunFrom(r, steps[..|steps| - 1]), steps[|steps| - 1]);
    }
  }

  lemma NobodyIsDeserted(r: Room)
    requires RoomOk(r) && Live(r) && r.game.phase.Playing? && r.game.turnOrder == []
    ensures Deserted(r)
  {
    hide CardsOk, ChipsOk, CrowdOk, SeatsOk, TurnOk;
    assert r.game.players.Keys == {};
    assert r.game.players == map[] && r.players == map[];
  }

  // ----- The exact condition -----

  /**
    Which rounds can end: in every live run state of the playing phase, some continuation ends the
    round (or, in a room of more than 67 seats, runs out of cards) if and only if somebody is seated.
  */
  lemma RoundEndsExactly(maxPlayers: int, turnIndex: Option<int>, steps: seq<Step>)
    requires var r := Run(maxPlayers, turnIndex, steps); Live(r) && r.game.phase.Playing?
    ensures var r := Run(maxPlayers, turnIndex, steps);
      (exists after :: RunFrom(r, after).game.phase.Ended? || RunFrom(r, after).game.crashed)
      <==> r.game.turnOrder != []
    ensures var r := Run(maxPlayers, turnIndex, steps);
      maxPlayers <= SAFE_SEATS ==>
        ((exists after :: RunFrom(r, after).game.phase.Ended?) <==> r.game.turnOrder != [])
  {
    hide Next, RunFrom, RoomOk, Deserted;
    var r := Run(maxPlayers, turnIndex, steps);
    RunOk(maxPlayers, turnIndex, steps);
    if r.game.turnOrder != [] {
      var after := CanFinish(r);
    } else {
      NobodyIsDeserted(r);
      forall after ensures RunFrom(r, after).game.phase.Playing? && !RunFrom(r, after).game.crashed {
        DesertedForEver(r, after);
        DesertedPlays(RunFrom(r, after));
      }
    }
  }

  lemma DesertedPlays(r: Room)
    requires Deserted(r)
    ensures r.game.phase.Playing? && !r.game.crashed
    ensures !r.destroyed ==> r.players == map[] && r.isPlaying
  {
  }

  /**
    What a deserted room is left with: short of a shutdown it plays on without players for ever,
    and answers every join with 46402.
  */
  lemma DesertedRoomIsClosed(maxPlayers: int, turnIndex: Option<int>, steps: seq<Step>, after: seq<Step>,
                             p: PlayerId, info: Option<string>)
    requires var r := Run(maxPlayers, turnIndex, steps); Live(r) && r.game.phase.Playing? && r.players == map[]
    requires forall i :: 0 <= i < |after| ==> after[i] != Deliver(MsgShutdown)
    ensures var t := RunFrom(Run(maxPlayers, turnIndex, steps), after);
      && t.game.phase.Playing? && t.isPlaying && t.players == map[]
      && Next(t, Deliver(MsgPlayerJoin(p, info))).events == t.events + [Error(p, 46402)]
      && Next(t, Deliver(MsgPlayerJoin(p, info))).players == map[]
  {
    hide Next, RunFrom, RoomOk, Deserted, TableOk;
    var r := Run(maxPlayers, turnIndex, steps);
    RunOk(maxPlayers, turnIndex, steps);
    NoMembersNoOrder(r);
    NobodyIsDeserted(r);
    DesertedForEver(r, after);
    var t := RunFrom(r, after);
    DesertedPlays(t);
    var step := Deliver(MsgPlayerJoin(p, info));
    DesertedStays(t, step);
    DesertedPlays(Next(t, step));
  }

  lemma NoMembersNoOrder(r: Room)
    requires RoomOk(r) && Live(r) && r.players == map[]
    ensures r.game.turnOrder == []
  {
    hide CardsOk, ChipsOk, CrowdOk, SeatsOk, TurnOk, DealerOk;
    assert r.game.players.Keys == {};
    NoDupLength(r.game.turnOrder, r.game.players.Keys);
  }
}
