/**
  Who loses a turn without having acted.  The index moves by one position, but a leave also
  shifts the turn order under it: what counts is which players are passed.
*/
module LostTurns {
  import opened Prelude
  import opened Cards
  import opened Engine
  import opened Blackjack
  import opened TableInvariants
  import opened TurnLaws
  import opened TableLaws
  import opened Room
  import opened RoomLaws
  import opened RoundLaws
  import opened RoundTermination
  import opened TurnTheorems

  /**
    A player who is seated before and after, could act and has not (the seat is as it was), had
    not been passed, and now has been, or finds the playing phase over.
  */
  ghost predicate Robbed(g: Game, h: Game, q: PlayerId) {
    && q in g.players && q in h.players && h.players[q] == g.players[q] && Active(g.players[q])
    && g.phase.Playing? && !IsPassed(g, q)
    && (!h.phase.Playing? || IsPassed(h, q))
  }

  // ----- One call -----

  lemma PassedAt(g: Game, q: PlayerId, j: nat)
    requires NoDup(g.turnOrder) && j < |g.turnOrder| && g.turnOrder[j] == q
    ensures IsPassed(g, q) <==> j < g.currentPlayerIndex
  {
  }

  /** Where a player sits after another has left. */
  lemma SeatAfterLeave(order: seq<PlayerId>, i: nat, j: nat)
    requires NoDup(order) && i < |order| && j < |order| && i != j
    ensures var k := if j < i then j else j - 1;
      k < |Without(order, i)| && Without(order, i)[k] == order[j]
    ensures NoDup(Without(order, i))
  {
    WithoutNoDup(order, i);
  }

  /** What a leave of the playing phase comes to: the order without the leaver, the index one on. */
  lemma LeaveShape(g: Game, p: PlayerId, i: nat, cap: nat)
    requires TableOk(g, cap) && g.phase.Playing? && NoStrays(g) && |g.turnOrder| > 1
    requires i < |g.turnOrder| && g.turnOrder[i] == p
    ensures var h := Leave(g, p);
      && h.turnOrder == Without(g.turnOrder, i) && h.players == g.players - {p}
      && h.currentPlayerIndex == g.currentPlayerIndex + 1
      && (h.phase.Playing? <==> g.currentPlayerIndex + 2 < |g.turnOrder|)
      && (!h.phase.Playing? ==> h.phase.Dealer?)
  {
    hide AdvanceTurn, Value, Weigh, CardsOk, ChipsOk, CrowdOk, DealerOk, SeatsOk, NoStrays, IndexOf;
    assert p in g.turnOrder;
    LeaveIsOneStep(g, p, cap);
    assert IndexOf(g.turnOrder, p) == i;
    AdvanceStops(Unseat(g, p));
  }

  /** The positions that a leave by the `i`-th of the order robs. */
  predicate RobbedSpot(current: nat, i: nat, j: nat) {
    (j == current && j != i) || (j == current + 1 && i <= current)
  }

  lemma LeaveRobsAt(g: Game, p: PlayerId, i: nat, q: PlayerId, j: nat, cap: nat)
    requires TableOk(g, cap) && g.phase.Playing? && NoStrays(g)
    requires i < |g.turnOrder| && g.turnOrder[i] == p
    requires j < |g.turnOrder| && g.turnOrder[j] == q && i != j
    ensures Robbed(g, Leave(g, p), q) <==> RobbedSpot(g.currentPlayerIndex, i, j)
  {
    hide Leave, TableOk, NoStrays, NoDup, IsPassed;
    var h := Leave(g, p);
    TableSeated(g, cap);
    LeaveShape(g, p, i, cap);
    SeatAfterLeave(g.turnOrder, i, j);
    PassedAt(g, q, j);
    PassedAt(h, q, if j < i then j else j - 1);
    CurrentInRange(g, cap);
    if g.currentPlayerIndex <= j {
      NextCanAct(g, cap, j);
    }
  }

  lemma CurrentInRange(g: Game, cap: nat)
    requires TableOk(g, cap) && g.phase.Playing? && g.turnOrder != []
    ensures g.currentPlayerIndex < |g.turnOrder|
  {
  }

  /**
    Whom a leave robs: the current player, unless that is the one who leaves, and the next one,
    unless the leaver sits behind the current player.
  */
  lemma LeaveRobsWhom(g: Game, p: PlayerId, i: nat, q: PlayerId, cap: nat)
    requires TableOk(g, cap) && g.phase.Playing? && NoStrays(g)
    requires i < |g.turnOrder| && g.turnOrder[i] == p
    ensures Robbed(g, Leave(g, p), q) <==>
      exists j :: 0 <= j < |g.turnOrder| && g.turnOrder[j] == q && RobbedSpot(g.currentPlayerIndex, i, j)
  {
    hide Leave, TableOk, NoStrays, IsPassed;
    TableSeated(g, cap);
    LeaverGone(g, p);
    if q in g.turnOrder && q != p {
      var j :| 0 <= j < |g.turnOrder| && g.turnOrder[j] == q;
      LeaveRobsAt(g, p, i, q, j, cap);
    }
  }

  /** A leave robs somebody unless it is that of the current player who is last in the order. */
  lemma LeaveRobsExactly(g: Game, p: PlayerId, cap: nat)
    requires TableOk(g, cap) && g.phase.Playing? && NoStrays(g) && p in g.players
    ensures (exists q :: Robbed(g, Leave(g, p), q))
      <==> !(IsCurrent(g, p) && g.currentPlayerIndex + 1 == |g.turnOrder|)
  {
    hide Leave, TableOk, NoStrays, Robbed;
    TableSeated(g, cap);
    var i :| 0 <= i < |g.turnOrder| && g.turnOrder[i] == p;
    CurrentInRange(g, cap);
    forall q { LeaveRobsWhom(g, p, i, q, cap); }
    var c := g.currentPlayerIndex;
    if i != c {
      assert RobbedSpot(c, i, c);
      assert Robbed(g, Leave(g, p), g.turnOrder[c]);
    } else if c + 1 < |g.turnOrder| {
      assert RobbedSpot(c, i, c + 1);
      assert Robbed(g, Leave(g, p), g.turnOrder[c + 1]);
    }
  }

  lemma TableSeated(g: Game, cap: nat)
    requires TableOk(g, cap)
    ensures NoDup(g.turnOrder) && forall q :: q in g.turnOrder <==> q in g.players
  {
  }

  lemma LeaverGone(g: Game, p: PlayerId)
    ensures p !in Leave(g, p).players
    ensures forall q :: q in Leave(g, p).players ==> q in g.players
  {
    hide Value, Weigh;
    AdvanceStops(Unseat(g, p));
  }

  /** The current player and everybody ahead can act. */
  lemma NextCanAct(g: Game, cap: nat, j: nat)
    requires TableOk(g, cap) && g.phase.Playing? && NoStrays(g)
    requires g.currentPlayerIndex <= j < |g.turnOrder|
    ensures g.turnOrder[j] in g.players && Active(g.players[g.turnOrder[j]])
  {
    hide Value, Weigh, CardsOk, ChipsOk, CrowdOk, DealerOk, SeatsOk;
    if j > g.currentPlayerIndex {
      assert AheadOk(g, g.currentPlayerIndex + 1);
    }
  }

  /** A call that leaves the phase, the order and the index alone robs nobody. */
  lemma SameTurnsRobNobody(g: Game, h: Game, q: PlayerId)
    requires h.phase == g.phase && h.turnOrder == g.turnOrder && h.currentPlayerIndex == g.currentPlayerIndex
    ensures !Robbed(g, h, q)
  {
  }

  /** What an accepted action of the current player comes to. */
  ghost predicate CurrentActed(g: Game, h: Game, p: PlayerId) {
    && h.turnOrder == g.turnOrder && h.players.Keys == g.players.Keys
    && p in g.players && h.players[p] != g.players[p]
    && (forall q :: q in g.players && q != p ==> h.players[q] == g.players[q])
    && (h.currentPlayerIndex == g.currentPlayerIndex || h.currentPlayerIndex == g.currentPlayerIndex + 1)
    && (h.phase.Playing? || h.phase.Dealer?)
    && (h.phase.Dealer? ==> h.currentPlayerIndex == g.currentPlayerIndex + 1 >= |g.turnOrder|)
    && (h.currentPlayerIndex == g.currentPlayerIndex + 1 ==> !Active(h.players[p]))
  }

  lemma HitActs(g: Game, p: PlayerId, cap: nat)
    requires TableOk(g, cap) && !g.crashed && g.phase.Playing? && NoStrays(g) && IsCurrent(g, p) && p in g.players
    requires g.deck != []
    ensures CurrentActed(g, HandleHit(g, p), p)
  {
    hide TableOk, NoStrays, Value, Weigh, AdvanceTurn, DealerPlay;
    HitIsOneStep(g, p, cap);
    HitIsOneChange(g, p);
    AdvanceStops(HitTable(g, p));
    assert |HitTable(g, p).players[p].hand| == |g.players[p].hand| + 1;
    DealerPhase(HitTable(g, p).(currentPlayerIndex := g.currentPlayerIndex + 1));
  }

  lemma StandActs(g: Game, p: PlayerId, cap: nat)
    requires TableOk(g, cap) && g.phase.Playing? && NoStrays(g) && IsCurrent(g, p) && p in g.players
    ensures CurrentActed(g, HandleStand(g, p), p)
  {
    NextCanAct(g, cap, g.currentPlayerIndex);
    hide TableOk, NoStrays, Value, Weigh, AdvanceTurn, DealerPlay;
    StandIsOneStep(g, p, cap);
    var t := SetSeat(g, p, g.players[p].(stood := true));
    AdvanceStops(t);
    DealerPhase(t.(currentPlayerIndex := g.currentPlayerIndex + 1));
  }

  lemma DoubleActs(g: Game, p: PlayerId, cap: nat)
    requires TableOk(g, cap) && !g.crashed && g.phase.Playing? && NoStrays(g) && IsCurrent(g, p) && p in g.players
    requires g.deck != [] && Accepted(g, PlayerAction(p, Double))
    ensures CurrentActed(g, HandleDouble(g, p), p)
  {
    hide TableOk, NoStrays, Value, Weigh, AdvanceTurn, DealerPlay;
    DoubleIsOneStep(g, p, cap);
    DoubleIsOneChange(g, p);
    AdvanceStops(DoubledTable(g, p));
    assert |DoubledTable(g, p).players[p].hand| == |g.players[p].hand| + 1;
    DealerPhase(DoubledTable(g, p).(currentPlayerIndex := g.currentPlayerIndex + 1));
  }

  lemma DealerPhase(g: Game)
    ensures DealerPlay(g).phase.Dealer? && DealerPlay(g).currentPlayerIndex == g.currentPlayerIndex
    ensures DealerPlay(g).players == g.players && DealerPlay(g).turnOrder == g.turnOrder
  {
  }

  /** An action either changes no seat and no turn, or is the current player's. */
  lemma ActTurns(g: Game, p: PlayerId, action: Action, cap: nat)
    requires TableOk(g, cap) && !g.crashed && g.phase.Playing? && NoStrays(g) && p in g.players
    ensures var h := Act(g, p, action);
      || (IsCurrent(g, p) && CurrentActed(g, h, p))
      || (h.phase == g.phase && h.players == g.players && h.turnOrder == g.turnOrder
          && h.currentPlayerIndex == g.currentPlayerIndex)
  {
    hide TableOk, NoStrays, HandleHit, HandleStand, HandleDouble, CurrentActed;
    if !Accepted(g, PlayerAction(p, action)) {
      RefusedChangesNothing(g, p, action);
    } else if Act(g, p, action).crashed {
      ThrowKeepsTurns(g, p, action);
    } else {
      NoStrayStep(g, p, action, cap);
      AcceptedHasCard(g, p, action);
      match action
      case Hit => HitActs(g, p, cap);
      case Stand => StandActs(g, p, cap);
      case Double => DoubleActs(g, p, cap);
      case _ =>
    }
  }

  lemma AcceptedHasCard(g: Game, p: PlayerId, action: Action)
    requires g.phase.Playing? && p in g.players && Accepted(g, PlayerAction(p, action))
    requires !Act(g, p, action).crashed
    ensures action.Stand? || g.deck != []
  {
    hide AdvanceTurn, Value;
  }

  lemma ActorRobsNobody(g: Game, h: Game, p: PlayerId, q: PlayerId)
    requires NoDup(g.turnOrder) && (forall x :: x in g.turnOrder <==> x in g.players) && g.phase.Playing?
    requires IsCurrent(g, p) && CurrentActed(g, h, p)
    ensures !Robbed(g, h, q)
  {
    if q in g.turnOrder && q != p {
      var j :| 0 <= j < |g.turnOrder| && g.turnOrder[j] == q;
      PassedAt(g, q, j);
      PassedAt(h, q, j);
    }
  }

  /** Hits, stands and doubles rob nobody when nobody can stray. */
  lemma ActRobsNobody(g: Game, p: PlayerId, action: Action, q: PlayerId, cap: nat)
    requires TableOk(g, cap) && !g.crashed && g.phase.Playing? && NoStrays(g) && p in g.players
    ensures !Robbed(g, Act(g, p, action), q)
  {
    hide TableOk, NoStrays, Act, CurrentActed, Robbed;
    TableSeated(g, cap);
    ActTurns(g, p, action, cap);
    var h := Act(g, p, action);
    if IsCurrent(g, p) && CurrentActed(g, h, p) {
      ActorRobsNobody(g, h, p, q);
    } else {
      SameTurnsRobNobody(g, h, q);
    }
  }

  // ----- One step of a room -----

  /** The leave of a seated player during play, unless it is the current player's who is last in the order. */
  predicate RobbingLeave(r: Room, step: Step) {
    && Live(r) && r.game.phase.Playing? && step.Deliver? && step.msg.MsgPlayerLeave? && step.msg.p in r.players
    && !(IsCurrent(r.game, step.msg.p) && r.game.currentPlayerIndex + 1 == |r.game.turnOrder|)
  }

  /** A step robs somebody exactly if it is such a leave. */
  lemma StepRobsExactly(r: Room, step: Step)
    requires RoomOk(r) && (Live(r) && r.game.phase.Playing? ==> NoStrays(r.game))
    ensures (exists q :: Robbed(r.game, Next(r, step).game, q)) <==> RobbingLeave(r, step)
  {
    hide TableOk, Next, Act, Leave, Robbed, NoStrays, Destroy;
    var h := Next(r, step).game;
    if !Live(r) || !r.game.phase.Playing? || (step.Deliver? && step.msg.MsgShutdown?) {
      forall q ensures !Robbed(r.game, h, q) { IdleStepRobsNobody(r, step, q); }
    } else {
      StepIsMove(r, step);
      var move := MoveOf(r, step);
      if move.None? {
        forall q ensures !Robbed(r.game, h, q) { SameTurnsRobNobody(r.game, h, q); }
      } else {
        MoveAllowed(r, step);
        NoDrawWhilePlaying(r.game, Capacity(r.maxPlayers));
        match move.value
        case PlayerLeave(p) => LeaveRobsExactly(r.game, p, Capacity(r.maxPlayers));
        case PlayerAction(p, action) =>
          forall q ensures !Robbed(r.game, h, q) { ActRobsNobody(r.game, p, action, q, Capacity(r.maxPlayers)); }
        case _ =>
      }
    }
  }

  /** Nobody is robbed outside the playing phase, by a dead script, or by a shutdown. */
  lemma IdleStepRobsNobody(r: Room, step: Step, q: PlayerId)
    requires RoomOk(r)
    requires !Live(r) || !r.game.phase.Playing? || (step.Deliver? && step.msg.MsgShutdown?)
    ensures !Robbed(r.game, Next(r, step).game, q)
  {
    hide TableOk, Next, Act, Leave, Draw, Join, Start;
    if !Live(r) {
      FrozenGame(r, step);
    } else if r.game.phase.Playing? {
      PlayOf(r, step);
    }
  }

  // ----- Who has not acted when the dealer plays -----

  /** A seated player who can act and no longer will: passed, or left over by the playing phase. */
  ghost predicate Idle(g: Game, q: PlayerId) {
    && q in g.players && Active(g.players[q]) && InPlay(g.phase)
    && (g.phase.Playing? ==> IsPassed(g, q))
  }

  lemma SameTurnsSameIdle(g: Game, h: Game, q: PlayerId)
    requires h.phase == g.phase && h.turnOrder == g.turnOrder && h.currentPlayerIndex == g.currentPlayerIndex
    requires h.players == g.players
    ensures Idle(h, q) <==> Idle(g, q)
  {
  }

  lemma LeaveIdle(g: Game, p: PlayerId, q: PlayerId, cap: nat)
    requires TableOk(g, cap) && g.phase.Playing? && NoStrays(g) && p in g.players && q in Leave(g, p).players
    ensures Idle(Leave(g, p), q) <==> Idle(g, q) || Robbed(g, Leave(g, p), q)
  {
    hide Leave, TableOk, NoStrays, NoDup, IsPassed;
    var h := Leave(g, p);
    TableSeated(g, cap);
    LeaverGone(g, p);
    var i :| 0 <= i < |g.turnOrder| && g.turnOrder[i] == p;
    var j :| 0 <= j < |g.turnOrder| && g.turnOrder[j] == q;
    LeaveShape(g, p, i, cap);
    SeatAfterLeave(g.turnOrder, i, j);
    PassedAt(g, q, j);
    PassedAt(h, q, if j < i then j else j - 1);
  }

  lemma ActIdle(g: Game, p: PlayerId, action: Action, q: PlayerId, cap: nat)
    requires TableOk(g, cap) && !g.crashed && g.phase.Playing? && NoStrays(g) && p in g.players
    requires q in g.players
    ensures Idle(Act(g, p, action), q) <==> Idle(g, q) || Robbed(g, Act(g, p, action), q)
  {
    hide TableOk, NoStrays, Act, IsPassed;
    TableSeated(g, cap);
    ActTurns(g, p, action, cap);
    ActRobsNobody(g, p, action, q, cap);
    var h := Act(g, p, action);
    var j :| 0 <= j < |g.turnOrder| && g.turnOrder[j] == q;
    PassedAt(g, q, j);
    if h.turnOrder == g.turnOrder {
      PassedAt(h, q, j);
    }
  }

  /** Once the dealer plays, nobody's decision changes any more. */
  lemma LateMove(g: Game, move: Move, q: PlayerId, cap: nat)
    requires TableOk(g, cap) && !g.crashed && (g.phase.Dealer? || g.phase.Ended?) && Allowed(g, move, cap)
    requires !Play(g, move).crashed && q in Play(g, move).players
    ensures Idle(Play(g, move), q) <==> Idle(g, q)
  {
    hide AdvanceTurn, Value, Weigh, SettleAll, CardsOk, ChipsOk, CrowdOk, TurnOk, IsPassed;
    match move
    case DealerDraw =>
      if Value(g.dealerHand) >= 17 {
        ResolveSettles(g.(drawPending := false));
      }
    case PlayerLeave(p) =>
    case PlayerAction(p, action) =>
    case _ =>
  }

  /** Up to the deal nobody has been passed. */
  lemma EarlyMove(g: Game, move: Move, q: PlayerId, cap: nat)
    requires TableOk(g, cap) && !g.crashed && !InPlay(g.phase) && IndexWaits(g) && Allowed(g, move, cap)
    ensures !Idle(Play(g, move), q)
  {
    hide TableOk, AdvanceTurn, Value, Weigh, DealHands, Shuffled, AllBet;
    NoDrawEarly(g, cap);
    QuietIndex(g, move);
    EarlyPhase(g, move);
    hide Play;
  }

  lemma NoDrawEarly(g: Game, cap: nat)
    requires TableOk(g, cap) && !InPlay(g.phase)
    ensures !g.drawPending
  {
  }

  lemma EarlyPhase(g: Game, move: Move)
    requires !g.crashed && !InPlay(g.phase) && (move.DealerDraw? ==> g.drawPending)
    ensures !move.DealerDraw? ==> Play(g, move).phase.Playing? || !InPlay(Play(g, move).phase)
  {
    hide AdvanceTurn, Value, Weigh, DealHands, Shuffled, AllBet;
  }

  /** A step makes idle exactly those it robs, and nobody seated stops being idle. */
  lemma StepIdle(r: Room, step: Step, q: PlayerId)
    requires RoomOk(r) && Live(r) && Live(Next(r, step)) && IndexWaits(r.game)
    requires r.game.phase.Playing? ==> NoStrays(r.game)
    requires q in Next(r, step).game.players
    ensures Idle(Next(r, step).game, q) <==> Idle(r.game, q) || Robbed(r.game, Next(r, step).game, q)
  {
    hide TableOk, Next, Act, Leave, Play, NoStrays, IsPassed, IndexWaits;
    var g, cap := r.game, Capacity(r.maxPlayers);
    if step.Deliver? && step.msg.MsgShutdown? {
      ShutdownKills(r);
    } else {
      StepIsMove(r, step);
      var move := MoveOf(r, step);
      if move.Some? {
        MoveAllowed(r, step);
        MoveIdle(g, move.value, q, cap);
      }
    }
  }

  lemma ShutdownKills(r: Room)
    ensures Next(r, Deliver(MsgShutdown)).destroyed
  {
    hide Play, Destroy;
  }

  lemma MoveIdle(g: Game, move: Move, q: PlayerId, cap: nat)
    requires TableOk(g, cap) && !g.crashed && IndexWaits(g) && Allowed(g, move, cap)
    requires g.phase.Playing? ==> NoStrays(g)
    requires !Play(g, move).crashed && q in Play(g, move).players
    ensures Idle(Play(g, move), q) <==> Idle(g, q) || Robbed(g, Play(g, move), q)
  {
    hide TableOk, NoStrays, IsPassed, IndexWaits, Act, Leave, Draw, Join, Start;
    if g.phase.Dealer? || g.phase.Ended? {
      LateMove(g, move, q, cap);
    } else if !InPlay(g.phase) {
      EarlyMove(g, move, q, cap);
    } else {
      NoDrawWhilePlaying(g, cap);
      match move
      case PlayerLeave(p) => LeaveIdle(g, p, q, cap);
      case PlayerAction(p, action) =>
        ActSeats(g, p, action);
        ActIdle(g, p, action, q, cap);
      case _ =>
    }
  }

  lemma ActSeats(g: Game, p: PlayerId, action: Action)
    requires g.phase.Playing? && p in g.players
    ensures Act(g, p, action).players.Keys == g.players.Keys
  {
    ActionPhase(g, p, action);
  }

  // ----- Over runs -----

  /** Step `i` of a run robs `q`. */
  ghost predicate RobbedAt(maxPlayers: int, turnIndex: Option<int>, steps: seq<Step>, i: nat, q: PlayerId)
    requires i < |steps|
  {
    Robbed(Run(maxPlayers, turnIndex, steps[..i]).game, Run(maxPlayers, turnIndex, steps[..i + 1]).game, q)
  }

  ghost predicate RobbedInRun(maxPlayers: int, turnIndex: Option<int>, steps: seq<Step>, q: PlayerId) {
    exists i :: 0 <= i < |steps| && RobbedAt(maxPlayers, turnIndex, steps, i, q)
  }

  lemma RobbedInLonger(maxPlayers: int, turnIndex: Option<int>, steps: seq<Step>, q: PlayerId)
    requires steps != []
    ensures var n := |steps| - 1;
      RobbedInRun(maxPlayers, turnIndex, steps, q)
      <==> RobbedInRun(maxPlayers, turnIndex, steps[..n], q) || RobbedAt(maxPlayers, turnIndex, steps, n, q)
  {
    hide Run, Robbed;
    var n := |steps| - 1;
    forall i | 0 <= i < n
      ensures RobbedAt(maxPlayers, turnIndex, steps[..n], i, q) <==> RobbedAt(maxPlayers, turnIndex, steps, i, q)
    {
      assert steps[..n][..i] == steps[..i] && steps[..n][..i + 1] == steps[..i + 1];
    }
  }

  /** After the deal nobody joins. */
  lemma LateJoiners(r: Room, step: Step, q: PlayerId)
    requires RoomOk(r) && Live(r) && InPlay(r.game.phase) && q in Next(r, step).game.players
    ensures q in r.game.players
    ensures InPlay(Next(r, step).game.phase)
  {
    hide TableOk, Next, Act, Leave, Draw, Join, Start;
    PlayOf(r, step);
    LatePlayers(r.game, step, r, q);
    StepRank(r, step);
  }

  lemma LatePlayers(g: Game, step: Step, r: Room, q: PlayerId)
    requires RoomOk(r) && Live(r) && g == r.game && InPlay(g.phase) && q in GameAfter(r, step).players
    ensures q in g.players
  {
    hide TableOk, Value, Weigh, AdvanceTurn, Act, Join, Start, SettleAll;
    if step.Deliver? && step.msg.MsgPlayerLeave? {
      LeaverGone(g, step.msg.p);
    } else if step.Deliver? && step.msg.MsgPlayerAction? && step.msg.p in g.players {
      ActionPhase(g, step.msg.p, step.msg.action);
    }
  }

  /** Robbed players are idle from then on, as long as they are seated, and nobody else is. */
  lemma {:induction false} IdleInRuns(maxPlayers: int, turnIndex: Option<int>, ids: set<PlayerId>,
                                      steps: seq<Step>, q: PlayerId)
    requires JoinersFrom(steps, ids) && !StraysPossible(maxPlayers, turnIndex, ids)
    requires Live(Run(maxPlayers, turnIndex, steps))
    ensures var g := Run(maxPlayers, turnIndex, steps).game;
      && (q in g.players ==> (Idle(g, q) <==> RobbedInRun(maxPlayers, turnIndex, steps, q)))
      && (RobbedInRun(maxPlayers, turnIndex, steps, q) ==> InPlay(g.phase))
    decreases |steps|
  {
    hide Next, RoomOk, Live, Idle, Robbed, RobbedInRun, NoStrays, StraysPossible, IndexWaits, RunFrom;
    if steps == [] {
      NobodyRobbedYet(maxPlayers, turnIndex, q);
    } else {
      var n := |steps| - 1;
      var front, last := steps[..n], steps[n];
      var r := Run(maxPlayers, turnIndex, front);
      RunStep(maxPlayers, turnIndex, steps);
      RunOk(maxPlayers, turnIndex, front);
      if !Live(r) {
        DeadStaysDead(r, last);
      }
      IdleInRuns(maxPlayers, turnIndex, ids, front, q);
      RobbedInLonger(maxPlayers, turnIndex, steps, q);
      RunNoStrays(maxPlayers, turnIndex, front, ids);
      IndexWaitsInRuns(maxPlayers, turnIndex, front, ids);
      assert steps[..n + 1] == steps;
      LastStepIdle(r, last, q);
    }
  }

  lemma NobodyRobbedYet(maxPlayers: int, turnIndex: Option<int>, q: PlayerId)
    ensures !RobbedInRun(maxPlayers, turnIndex, [], q) && q !in Run(maxPlayers, turnIndex, []).game.players
  {
    hide Robbed;
  }

  lemma LastStepIdle(r: Room, step: Step, q: PlayerId)
    requires RoomOk(r) && Live(r) && Live(Next(r, step)) && IndexWaits(r.game)
    requires Live(r) ==> NoStrays(r.game)
    ensures var g, h := r.game, Next(r, step).game;
      && (q in h.players ==> (Idle(h, q) <==> Idle(g, q) || Robbed(g, h, q)))
      && (InPlay(g.phase) ==> InPlay(h.phase))
      && (InPlay(g.phase) && q in h.players ==> q in g.players)
      && (Robbed(g, h, q) ==> InPlay(g.phase))
      && (Idle(g, q) ==> InPlay(g.phase) && q in g.players)
  {
    hide Next, TableOk, NoStrays, IndexWaits;
    if q in Next(r, step).game.players {
      StepIdle(r, step, q);
    }
    if InPlay(r.game.phase) {
      StepRank(r, step);
      if q in Next(r, step).game.players {
        LateJoiners(r, step, q);
      }
    }
  }

  /**
    Who has not acted when the dealer plays: in every run in which nobody can stray, a player
    seated in the dealer's phase or at the end has neither stood nor bust if and only if some step
    of the run robbed that player.
  */
  lemma IdleAreRobbed(maxPlayers: int, turnIndex: Option<int>, ids: set<PlayerId>, steps: seq<Step>, q: PlayerId)
    requires JoinersFrom(steps, ids) && !StraysPossible(maxPlayers, turnIndex, ids)
    requires var r := Run(maxPlayers, turnIndex, steps);
      Live(r) && (r.game.phase.Dealer? || r.game.phase.Ended?) && q in r.game.players
    ensures Active(Run(maxPlayers, turnIndex, steps).game.players[q])
      <==> RobbedInRun(maxPlayers, turnIndex, steps, q)
  {
    hide Run, RobbedInRun, StraysPossible;
    IdleInRuns(maxPlayers, turnIndex, ids, steps, q);
  }

  /** So without a robbing leave everybody seated has stood or bust once the dealer plays. */
  lemma EverybodyActed(maxPlayers: int, turnIndex: Option<int>, ids: set<PlayerId>, steps: seq<Step>, q: PlayerId)
    requires JoinersFrom(steps, ids) && !StraysPossible(maxPlayers, turnIndex, ids)
    requires var r := Run(maxPlayers, turnIndex, steps);
      Live(r) && (r.game.phase.Dealer? || r.game.phase.Ended?) && q in r.game.players
    requires forall i :: 0 <= i < |steps| ==> !RobbingLeave(Run(maxPlayers, turnIndex, steps[..i]), steps[i])
    ensures !Active(Run(maxPlayers, turnIndex, steps).game.players[q])
  {
    hide Run, Next, RobbingLeave, Robbed, StraysPossible;
    IdleAreRobbed(maxPlayers, turnIndex, ids, steps, q);
    forall i | 0 <= i < |steps| ensures !RobbedAt(maxPlayers, turnIndex, steps, i, q) {
      assert steps[..i + 1][..i] == steps[..i] && steps[..i + 1][i] == steps[i];
      RunStep(maxPlayers, turnIndex, steps[..i + 1]);
      RunOk(maxPlayers, turnIndex, steps[..i]);
      RunNoStrays(maxPlayers, turnIndex, steps[..i], ids);
      StepRobsExactly(Run(maxPlayers, turnIndex, steps[..i]), steps[i]);
    }
  }

  // ----- When nobody is ever robbed -----

  /** Two players bet, the second leaves, and the first, whose turn it was, never gets to act. */
  lemma LeaveRobsInSomeRun(maxPlayers: int, turnIndex: Option<int>, p: PlayerId, q: PlayerId)
    requires p != q && maxPlayers >= 2
    ensures var r := Run(maxPlayers, turnIndex, TwoPlayers(p, q));
      var h := Next(r, Deliver(MsgPlayerLeave(q, p))).game;
      && Live(r) && r.game.phase.Playing? && IsCurrent(r.game, p)
      && p in r.game.players && Untouched(r.game.players[p])
      && !h.crashed && h.phase.Dealer? && Robbed(r.game, h, p)
  {
    hide Run, TwoPlayers, TableOk, Leave;
    var r := Run(maxPlayers, turnIndex, TwoPlayers(p, q));
    TwoPlayersAlive(maxPlayers, turnIndex, p, q);
    RunOk(maxPlayers, turnIndex, TwoPlayers(p, q));
    assert q in r.players;
    PlayOf(r, Deliver(MsgPlayerLeave(q, p)));
    hide Next;
    SecondLeaves(r.game, p, q);
    assert r.game.turnOrder[0] == p;
  }

  lemma SecondLeaves(g: Game, p: PlayerId, q: PlayerId)
    requires g.phase.Playing? && g.turnOrder == [p, q] && g.currentPlayerIndex == 0 && p != q && !g.crashed
    requires p in g.players
    ensures var h := Leave(g, q);
      !h.crashed && h.phase.Dealer? && p in h.players && h.players[p] == g.players[p]
  {
    assert IndexOf(g.turnOrder, q) == 1;
    assert Unseat(g, q).turnOrder == [p];
    hide Value, Weigh, IndexOf, Departure;
  }

  /** In every run of that room whose joiners come from `ids` no step robs anybody. */
  ghost predicate NobodyRobbed(maxPlayers: int, turnIndex: Option<int>, ids: set<PlayerId>) {
    forall steps, step, q :: JoinersFrom(steps, ids) ==>
      !Robbed(Run(maxPlayers, turnIndex, steps).game, Next(Run(maxPlayers, turnIndex, steps), step).game, q)
  }

  /**
    The exact condition, over every run of every room: no step ever robs a player of a turn if and
    only if the room has at most one seat or at most one player can join.
  */
  lemma NobodyRobbedExactly(maxPlayers: int, turnIndex: Option<int>, ids: set<PlayerId>)
    ensures NobodyRobbed(maxPlayers, turnIndex, ids) <==> maxPlayers <= 1 || |ids| <= 1
  {
    hide Run, Next, Robbed, TwoPlayers;
    if maxPlayers > 1 && |ids| > 1 {
      var p, q := TwoOf(ids);
      LeaveRobsInSomeRun(maxPlayers, turnIndex, p, q);
      TwoJoiners(p, q, ids);
    } else {
      forall steps, step, q | JoinersFrom(steps, ids)
        ensures !Robbed(Run(maxPlayers, turnIndex, steps).game, Next(Run(maxPlayers, turnIndex, steps), step).game, q)
      {
        var r := Run(maxPlayers, turnIndex, steps);
        RunOk(maxPlayers, turnIndex, steps);
        MembersFrom(maxPlayers, turnIndex, steps, ids);
        AloneRobsNobody(r, step, ids, q);
      }
    }
  }

  /** A lone player's leave robs nobody, and nobody else is there to leave. */
  lemma AloneRobsNobody(r: Room, step: Step, ids: set<PlayerId>, q: PlayerId)
    requires RoomOk(r) && r.players.Keys <= ids && (r.maxPlayers <= 1 || |ids| <= 1)
    ensures !Robbed(r.game, Next(r, step).game, q)
  {
    hide TableOk, Next, Robbed;
    if Live(r) {
      SubsetSize(r.players.Keys, ids);
      assert |r.players.Keys| == |r.players|;
      SameSize(r.game.players, r.players);
      AloneAtTable(r.game, Capacity(r.maxPlayers));
    }
    StepRobsExactly(r, step);
  }

  lemma AloneAtTable(g: Game, cap: nat)
    requires TableOk(g, cap) && |g.players| <= 1
    ensures NoStrays(g) && |g.turnOrder| <= 1
    ensures g.phase.Playing? ==>
      forall p :: p in g.players ==> IsCurrent(g, p) && g.currentPlayerIndex + 1 == |g.turnOrder|
  {
    hide CardsOk, ChipsOk, CrowdOk, DealerOk, SeatsOk, AheadOk;
    assert |g.players.Keys| == |g.players|;
    NoDupLength(g.turnOrder, g.players.Keys);
    forall p | g.phase.Playing? && p in g.players
      ensures IsCurrent(g, p) && g.currentPlayerIndex + 1 == |g.turnOrder|
    {
      assert p in g.turnOrder;
    }
  }

  lemma TwoOf(ids: set<PlayerId>) returns (p: PlayerId, q: PlayerId)
    requires |ids| > 1
    ensures p in ids && q in ids && p != q
  {
    p :| p in ids;
    assert |ids - {p}| > 0;
    q :| q in ids - {p};
  }
}
