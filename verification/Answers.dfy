/**
  What the room and its script answer to every message, in every run: told from what listeners
  know already, and from what players have staked.
*/
module Answers {
  import opened Prelude
  import opened Cards
  import opened Blackjack
  import opened TableInvariants
  import opened TurnLaws
  import opened ChipLaws
  import opened Room
  import opened RoomLaws
  import opened RoundLaws
  import opened RoundTheorems
  import opened Accounts

  // ----- The room's events -----

  /** Whether the game is on, by the last status that was reported. */
  function PlayingAfter(events: seq<Event>): bool {
    if events == [] then false
    else
      var last := events[|events| - 1];
      if last.Status? then last.status.StatusPlaying? else PlayingAfter(events[..|events| - 1])
  }

  predicate ShutDown(steps: seq<Step>) {
    exists i :: 0 <= i < |steps| && steps[i] == Deliver(MsgShutdown)
  }

  /**
    What a message lets the room say, by what the listeners have seen so far.  `heir` is the new
    owner if one is due, `fails` tells whether the script refuses to run or throws.
  */
  function Says(seen: Seen, playing: bool, maxPlayers: int, msg: Message, heir: PlayerId, fails: bool): seq<Event> {
    match msg
    case MsgPlayerJoin(p, info) =>
      if playing then [Error(p, 46402)]
      else if |seen.ready| >= maxPlayers then [Error(p, 46901)]
      else if p in seen.ready || info.None? then []
      else [PlayerJoined(p, |seen.ready| + 1)]
    case MsgPlayerLeave(p, _) =>
      if p !in seen.ready then []
      else if seen.ready - {p} == map[] then [PlayerLeft(p)] + if playing then [] else [Status(StatusClosed)]
      else [PlayerLeft(p)] + if p == seen.owner then [OwnerChange(heir)] else []
    case MsgPlayerReady(p) =>
      if p !in seen.ready then []
      else [PlayerReady(p)]
           + if forall q :: q in seen.ready && q != p ==> seen.ready[q] then [AllReady(|seen.ready|)] else []
    case MsgPlayerAction(p, _) =>
      if !playing then [Error(p, 46001)] else if p in seen.ready && fails then [Error(p, 47001)] else []
    case MsgGameStart(_) => if playing then [] else [Status(StatusPlaying), GameStarted]
    case MsgShutdown => [Status(StatusClosed)]
    case _ => []
  }

  /** The log tells who is there, who is ready, who owns the room, and whether it plays. */
  ghost predicate LogTells(r: Room) {
    SeenAfter(r.events) == Seen(ReadyFlags(r.players), r.ownerID) && PlayingAfter(r.events) == r.isPlaying
  }

  lemma PlayingMore(events: seq<Event>, e: Event)
    ensures PlayingAfter(events + [e]) == if e.Status? then e.status.StatusPlaying? else PlayingAfter(events)
  {
    assert (events + [e])[..|events|] == events;
  }

  lemma PlayingPlain(events: seq<Event>, more: seq<Event>)
    requires forall e :: e in more ==> !e.Status?
    ensures PlayingAfter(events + more) == PlayingAfter(events)
    decreases |more|
  {
    if more == [] {
      assert events + more == events;
    } else {
      var n := |more| - 1;
      PlayingPlain(events, more[..n]);
      assert events + more == (events + more[..n]) + [more[n]];
      PlayingMore(events + more[..n], more[n]);
    }
  }

  lemma JoinSays(r: Room, p: PlayerId, info: Option<string>, fails: bool)
    requires LogTells(r)
    ensures var t := HandleJoin(r, p, info);
      && t.events == r.events + Says(SeenAfter(r.events), PlayingAfter(r.events), r.maxPlayers,
                                     MsgPlayerJoin(p, info), EMPTY_ID, fails)
      && t.isPlaying == r.isPlaying
  {
    hide Play, SeenAfter, PlayingAfter;
    if info.Some? {
      MapSizes(r.players, p, Member(info.value, false));
    }
    SameSize(ReadyFlags(r.players), r.players);
  }

  lemma LeaveSays(r: Room, p: PlayerId, suggestion: PlayerId, fails: bool) returns (heir: PlayerId)
    requires LogTells(r)
    ensures var t := HandleLeave(r, p, suggestion);
      && t.events == r.events + Says(SeenAfter(r.events), PlayingAfter(r.events), r.maxPlayers,
                                     MsgPlayerLeave(p, suggestion), heir, fails)
      && t.isPlaying == r.isPlaying
  {
    heir := p;
    if p in r.players {
      var rest := r.players - {p};
      if |rest| > 0 {
        heir := Heir(rest, suggestion);
      }
      LeaveLogged(r, p, suggestion);
      FlagsOf(r.players, p, r.players[p]);
      MapSizes(rest, p, r.players[p]);
      NoFlags(rest);
    }
    hide Play, SeenAfter, PlayingAfter, HandleLeave, ReadyFlags;
    if p !in r.players {
      HandleLeaveNobody(r, p, suggestion);
      NoFlag(r.players, p);
    } else {
      NoFlag(r.players, p);
    }
  }

  lemma HandleLeaveNobody(r: Room, p: PlayerId, suggestion: PlayerId)
    requires p !in r.players
    ensures HandleLeave(r, p, suggestion) == r
  {
  }

  lemma NoFlag(players: map<PlayerId, Member>, p: PlayerId)
    ensures p in ReadyFlags(players) <==> p in players
  {
  }

  lemma LeaveLogged(r: Room, p: PlayerId, suggestion: PlayerId)
    requires p in r.players
    ensures var t, rest := HandleLeave(r, p, suggestion), r.players - {p};
      && t.isPlaying == r.isPlaying
      && t.events == r.events
         + if |rest| > 0 then [PlayerLeft(p)] + (if r.ownerID == p then [OwnerChange(Heir(rest, suggestion))] else [])
           else [PlayerLeft(p)] + if r.isPlaying then [] else [Status(StatusClosed)]
  {
    hide Play;
    var rest := r.players - {p};
    if |rest| > 0 {
      var change := OwnerChange(Heir(rest, suggestion));
      assert (r.events + [PlayerLeft(p)]) + [change] == r.events + [PlayerLeft(p), change];
    } else {
      assert (r.events + [PlayerLeft(p)]) + [Status(StatusClosed)] == r.events + [PlayerLeft(p), Status(StatusClosed)];
    }
  }

  lemma NoFlags(players: map<PlayerId, Member>)
    ensures ReadyFlags(players) == map[] <==> players == map[]
  {
    assert ReadyFlags(players).Keys == players.Keys;
    assert players == map[] <==> players.Keys == {};
    assert ReadyFlags(players) == map[] <==> ReadyFlags(players).Keys == {};
  }

  lemma ReadySays(r: Room, p: PlayerId, fails: bool)
    requires LogTells(r)
    ensures var t := HandleReady(r, p);
      && t.events == r.events + Says(SeenAfter(r.events), PlayingAfter(r.events), r.maxPlayers,
                                     MsgPlayerReady(p), EMPTY_ID, fails)
      && t.isPlaying == r.isPlaying
  {
    hide SeenAfter, PlayingAfter;
    if p in r.players {
      var m := r.players[p].(isReady := true);
      var ready := r.players[p := m];
      MapSizes(r.players, p, m);
      SameSize(ReadyFlags(r.players), r.players);
      assert Everyone(ready) <==> forall q :: q in r.players && q != p ==> r.players[q].isReady;
      var all := AllReady(|ready|);
      assert (r.events + [PlayerReady(p)]) + [all] == r.events + [PlayerReady(p), all];
    }
  }

  /** Whether the script cannot run the action, or throws on it. */
  ghost predicate ScriptFails(r: Room, step: Step) {
    r.destroyed || (Next(r, step).game.crashed && !r.game.crashed)
  }

  lemma OtherSays(r: Room, msg: Message)
    requires LogTells(r) && !msg.MsgPlayerJoin? && !msg.MsgPlayerLeave? && !msg.MsgPlayerReady?
    ensures var t := Handle(r, msg);
      && t.events == r.events + Says(SeenAfter(r.events), PlayingAfter(r.events), r.maxPlayers, msg, EMPTY_ID,
                                     ScriptFails(r, Deliver(msg)))
      && t.isPlaying == (if msg.MsgGameStart? then true else if msg.MsgShutdown? then false else r.isPlaying)
  {
    hide Play, SeenAfter, PlayingAfter, Destroy;
    if msg.MsgGameStart? {
      assert (r.events + [Status(StatusPlaying)]) + [GameStarted] == r.events + [Status(StatusPlaying), GameStarted];
    }
    assert ReadyFlags(r.players).Keys == r.players.Keys;
  }

  lemma PlainSays(seen: Seen, playing: bool, maxPlayers: int, msg: Message, heir: PlayerId, fails: bool)
    requires !msg.MsgShutdown? && (msg.MsgGameStart? ==> playing)
    ensures var more := Says(seen, playing, maxPlayers, msg, heir, fails);
      || (msg.MsgPlayerLeave? && !playing && more == [PlayerLeft(msg.p), Status(StatusClosed)])
      || forall e :: e in more ==> !e.Status?
  {
  }

  lemma SaysStatus(seen: Seen, playing: bool, maxPlayers: int, msg: Message, heir: PlayerId, fails: bool,
                   events: seq<Event>)
    requires PlayingAfter(events) == playing
    ensures PlayingAfter(events + Says(seen, playing, maxPlayers, msg, heir, fails))
      == if msg.MsgGameStart? then true else if msg.MsgShutdown? then false else playing
  {
    hide PlayingAfter;
    var more := Says(seen, playing, maxPlayers, msg, heir, fails);
    if msg.MsgGameStart? && !playing {
      PlayingMore(events, Status(StatusPlaying));
      PlayingMore(events + [Status(StatusPlaying)], GameStarted);
      assert events + more == (events + [Status(StatusPlaying)]) + [GameStarted];
    } else if msg.MsgShutdown? {
      PlayingMore(events, Status(StatusClosed));
    } else {
      PlainSays(seen, playing, maxPlayers, msg, heir, fails);
      hide Says;
      if msg.MsgPlayerLeave? && more == [PlayerLeft(msg.p), Status(StatusClosed)] {
        PlayingMore(events + [PlayerLeft(msg.p)], Status(StatusClosed));
        assert events + more == (events + [PlayerLeft(msg.p)]) + [Status(StatusClosed)];
      } else {
        PlayingPlain(events, more);
      }
    }
  }

  lemma MessageSays(r: Room, msg: Message) returns (heir: PlayerId)
    requires LogTells(r)
    ensures var t := Next(r, Deliver(msg));
      && t.events == r.events + Says(SeenAfter(r.events), PlayingAfter(r.events), r.maxPlayers, msg, heir,
                                     ScriptFails(r, Deliver(msg)))
      && PlayingAfter(t.events) == t.isPlaying
  {
    hide LogTells, HandleJoin, HandleLeave, HandleReady, HandleAction, HandleStart, HandleShutdown, Says,
         SeenAfter, PlayingAfter, Play, ScriptFails;
    heir := EMPTY_ID;
    var fails := ScriptFails(r, Deliver(msg));
    match msg {
      case MsgPlayerJoin(p, info) => JoinSays(r, p, info, fails);
      case MsgPlayerLeave(p, suggestion) => heir := LeaveSays(r, p, suggestion, fails);
      case MsgPlayerReady(p) => ReadySays(r, p, fails);
      case _ => OtherSays(r, msg);
    }
    TellsPlaying(r);
    SaysStatus(SeenAfter(r.events), PlayingAfter(r.events), r.maxPlayers, msg, heir, fails, r.events);
  }

  lemma TellsPlaying(r: Room)
    requires LogTells(r)
    ensures PlayingAfter(r.events) == r.isPlaying
  {
  }

  lemma TimerSaysNothing(r: Room)
    ensures Next(r, TimerFires).events == r.events && Next(r, TimerFires).isPlaying == r.isPlaying
  {
    hide Play;
  }

  lemma {:induction false} PlayingInRuns(maxPlayers: int, turnIndex: Option<int>, steps: seq<Step>)
    ensures LogTells(Run(maxPlayers, turnIndex, steps))
    decreases |steps|
  {
    hide Next, SeenAfter, EventFits, Settled, ReadyFlags;
    BroadcastsDetermineRoom(maxPlayers, turnIndex, steps);
    if steps != [] {
      var front, last := steps[..|steps| - 1], steps[|steps| - 1];
      PlayingInRuns(maxPlayers, turnIndex, front);
      var r := Run(maxPlayers, turnIndex, front);
      if last.Deliver? {
        var _ := MessageSays(r, last.msg);
      } else {
        TimerSaysNothing(r);
      }
    }
  }

  /**
    The room says nothing that its listeners could not tell: after any run, what a message lets it
    say is decided by the events so far, the room's size, and whether the script fails; the
    only freedom is who inherits the room.
  */
  lemma EventsAnswerMessages(maxPlayers: int, turnIndex: Option<int>, steps: seq<Step>, msg: Message)
    ensures var r := Run(maxPlayers, turnIndex, steps); var t := Next(r, Deliver(msg));
      exists heir :: t.events == r.events + Says(SeenAfter(r.events), PlayingAfter(r.events), maxPlayers, msg, heir,
                                                 ScriptFails(r, Deliver(msg)))
  {
    hide Run, Next, Says, LogTells, PlayingAfter, SeenAfter, ScriptFails;
    PlayingInRuns(maxPlayers, turnIndex, steps);
    RunOk(maxPlayers, turnIndex, steps);
    var heir := MessageSays(Run(maxPlayers, turnIndex, steps), msg);
  }

  // ----- The script's calls -----

  /** What a message lets the room call, by the calls before it. */
  function Calls(s: Protocol, maxPlayers: int, msg: Message): seq<Hook> {
    match msg
    case MsgPlayerJoin(p, info) =>
      if !s.started && |s.seated| < maxPlayers && p !in s.seated && info.Some? then [OnPlayerJoin(p)] else []
    case MsgPlayerLeave(p, _) => if p in s.seated then [OnPlayerLeave(p)] else []
    case MsgPlayerAction(p, action) => if s.started && p in s.seated then [OnPlayerAction(p, action)] else []
    case MsgGameStart(_) => if s.started then [] else [OnGameStart]
    case MsgGameTick => if s.started then [OnTick] else []
    case MsgTimer(hasData) => if hasData then [OnTimer] else []
    case MsgRestore => [OnRestore]
    case MsgShutdown => if s.started then [OnGameEnd] else []
    case _ => []
  }

  /** The hooks, the ticks and the engine after a message. */
  ghost predicate Called(r: Room, t: Room, hooks: seq<Hook>, msg: Message) {
    && t.hooks == r.hooks + (if r.destroyed then [] else hooks)
    && t.ticks == r.ticks + (if msg.MsgGameTick? && r.isPlaying then 1 else 0)
    && (t.destroyed <==> r.destroyed || msg.MsgShutdown?)
  }

  lemma JoinCalls(r: Room, s: Protocol, p: PlayerId, info: Option<string>)
    requires !r.destroyed ==> s == Protocol(r.players.Keys, r.isPlaying, false)
    ensures var msg := MsgPlayerJoin(p, info); Called(r, HandleJoin(r, p, info), Calls(s, r.maxPlayers, msg), msg)
  {
    hide Play;
    assert |r.players.Keys| == |r.players|;
  }

  lemma LeaveCalls(r: Room, s: Protocol, p: PlayerId, heir: PlayerId)
    requires !r.destroyed ==> s == Protocol(r.players.Keys, r.isPlaying, false)
    ensures var msg := MsgPlayerLeave(p, heir); Called(r, HandleLeave(r, p, heir), Calls(s, r.maxPlayers, msg), msg)
  {
    hide Play, Heir;
  }

  lemma OtherCalls(r: Room, s: Protocol, msg: Message)
    requires !r.destroyed ==> s == Protocol(r.players.Keys, r.isPlaying, false)
    requires !msg.MsgPlayerJoin? && !msg.MsgPlayerLeave?
    ensures Called(r, Handle(r, msg), Calls(s, r.maxPlayers, msg), msg)
  {
    hide Play, Destroy, Everyone, HandleJoin, HandleLeave;
  }

  lemma MessageCalls(r: Room, msg: Message)
    requires HooksOk(r)
    ensures Called(r, Next(r, Deliver(msg)), Calls(AfterHooks(r.hooks), r.maxPlayers, msg), msg)
  {
    hide TraceLegal, AfterHooks, HandleJoin, HandleLeave, HandleReady, HandleAction, HandleStart, HandleShutdown;
    hide Called, Calls, Trigger;
    match msg
    case MsgPlayerJoin(p, info) => JoinCalls(r, AfterHooks(r.hooks), p, info);
    case MsgPlayerLeave(p, heir) => LeaveCalls(r, AfterHooks(r.hooks), p, heir);
    case _ => OtherCalls(r, AfterHooks(r.hooks), msg);
  }

  lemma TimerCallsNothing(r: Room)
    ensures var t := Next(r, TimerFires); t.hooks == r.hooks && t.ticks == r.ticks && t.destroyed == r.destroyed
  {
    hide Play;
  }

  /** The engine is gone exactly after a shutdown. */
  lemma {:induction false} DestroyedExactly(maxPlayers: int, turnIndex: Option<int>, steps: seq<Step>)
    ensures Run(maxPlayers, turnIndex, steps).destroyed <==> ShutDown(steps)
    decreases |steps|
  {
    hide Next, HooksOk;
    if steps != [] {
      var n := |steps| - 1;
      var front, last := steps[..n], steps[n];
      assert forall i :: 0 <= i < n ==> front[i] == steps[i];
      DestroyedExactly(maxPlayers, turnIndex, front);
      HookProtocol(maxPlayers, turnIndex, front);
      assert ShutDown(steps) <==> ShutDown(front) || last == Deliver(MsgShutdown);
      if last.Deliver? {
        MessageCalls(Run(maxPlayers, turnIndex, front), last.msg);
      } else {
        TimerCallsNothing(Run(maxPlayers, turnIndex, front));
      }
    }
  }

  /**
    The script is called exactly when the calls before allow it: after any run without a shutdown a
    message reaches the script as the one hook that fits, or not at all; after one it never does.
    A tick is counted exactly while the game is on.
  */
  lemma HooksAnswerMessages(maxPlayers: int, turnIndex: Option<int>, steps: seq<Step>, msg: Message)
    ensures var r := Run(maxPlayers, turnIndex, steps); var t := Next(r, Deliver(msg));
      && t.hooks == r.hooks + (if ShutDown(steps) then [] else Calls(AfterHooks(r.hooks), maxPlayers, msg))
      && t.ticks == r.ticks + (if msg.MsgGameTick? && PlayingAfter(r.events) then 1 else 0)
  {
    hide Run, Next, Calls, HooksOk, SeenAfter, PlayingAfter, ReadyFlags;
    HookProtocol(maxPlayers, turnIndex, steps);
    DestroyedExactly(maxPlayers, turnIndex, steps);
    PlayingInRuns(maxPlayers, turnIndex, steps);
    RunOk(maxPlayers, turnIndex, steps);
    MessageCalls(Run(maxPlayers, turnIndex, steps), msg);
  }

  // ----- Names -----

  /** The nickname under which a player last joined. */
  ghost function NameOf(maxPlayers: int, turnIndex: Option<int>, steps: seq<Step>, p: PlayerId): string
    decreases |steps|
  {
    if steps == [] then ""
    else
      var front, last := steps[..|steps| - 1], steps[|steps| - 1];
      if last.Deliver? && last.msg.MsgPlayerJoin? && last.msg.p == p && last.msg.info.Some?
         && p !in Run(maxPlayers, turnIndex, front).players
      then last.msg.info.value
      else NameOf(maxPlayers, turnIndex, front, p)
  }

  /** Members keep their names; a new one brings it along. */
  ghost predicate NamesKept(a: map<PlayerId, Member>, b: map<PlayerId, Member>) {
    forall p :: p in b ==> p in a && b[p].nickname == a[p].nickname
  }

  lemma JoinNames(r: Room, p: PlayerId, info: Option<string>, q: PlayerId)
    requires q in HandleJoin(r, p, info).players
    ensures if q in r.players then HandleJoin(r, p, info).players[q].nickname == r.players[q].nickname
            else q == p && info == Some(HandleJoin(r, p, info).players[q].nickname)
  {
    hide Play;
  }

  lemma LeaveNames(r: Room, p: PlayerId, heir: PlayerId)
    ensures NamesKept(r.players, HandleLeave(r, p, heir).players)
  {
    hide Play, Heir;
  }

  lemma ReadyNames(r: Room, p: PlayerId)
    ensures NamesKept(r.players, HandleReady(r, p).players)
  {
    hide Everyone;
  }

  lemma OtherNames(r: Room, step: Step)
    requires step.Deliver? ==> !step.msg.MsgPlayerJoin? && !step.msg.MsgPlayerLeave? && !step.msg.MsgPlayerReady?
    ensures Next(r, step).players == r.players
  {
    hide Play, Destroy;
  }

  lemma StepNames(r: Room, step: Step, p: PlayerId)
    requires p in Next(r, step).players
    ensures if p in r.players then Next(r, step).players[p].nickname == r.players[p].nickname
            else step.Deliver? && step.msg.MsgPlayerJoin? && step.msg.p == p
                 && step.msg.info == Some(Next(r, step).players[p].nickname)
  {
    hide HandleJoin, HandleLeave, HandleReady, HandleAction, HandleStart, HandleShutdown, Play;
    if step.Deliver? && step.msg.MsgPlayerJoin? {
      JoinNames(r, step.msg.p, step.msg.info, p);
    } else if step.Deliver? && step.msg.MsgPlayerLeave? {
      LeaveNames(r, step.msg.p, step.msg.heir);
    } else if step.Deliver? && step.msg.MsgPlayerReady? {
      ReadyNames(r, step.msg.p);
    } else {
      OtherNames(r, step);
    }
  }

  /** In every run a member goes by the nickname of the message that seated it. */
  lemma {:induction false} NamesFollowJoins(maxPlayers: int, turnIndex: Option<int>, steps: seq<Step>, p: PlayerId)
    requires p in Run(maxPlayers, turnIndex, steps).players
    ensures Run(maxPlayers, turnIndex, steps).players[p].nickname == NameOf(maxPlayers, turnIndex, steps, p)
    decreases |steps|
  {
    hide Next;
    if steps != [] {
      var front := steps[..|steps| - 1];
      var r := Run(maxPlayers, turnIndex, front);
      StepNames(r, steps[|steps| - 1], p);
      if p in r.players {
        NamesFollowJoins(maxPlayers, turnIndex, front, p);
      }
    }
  }

  // ----- After a shutdown -----

  lemma DeadTimers(r: Room, step: Step)
    requires RoomOk(r)
    requires r.destroyed ==> r.game.timers.live == {} && !r.game.drawPending
    ensures Next(r, step).destroyed ==>
      Next(r, step).game.timers.live == {} && !Next(r, step).game.drawPending
  {
    hide Play, TableOk, Next;
    if r.destroyed {
      FrozenGame(r, step);
      DestroyedStays(r, step);
    } else if step.Deliver? {
      MessageEnds(r, step.msg);
    } else {
      TimerCallsNothing(r);
    }
  }

  lemma MessageEnds(r: Room, msg: Message)
    requires !r.destroyed
    ensures var t := Next(r, Deliver(msg));
      (t.destroyed <==> msg.MsgShutdown?) && (msg.MsgShutdown? ==> t.game == Destroy(r.game))
  {
    hide Play, Heir, Everyone, Destroy;
  }

  /** In every run, once the room was shut down the script's timers are gone and no draw is due. */
  lemma {:induction false} NoTimersAfterShutdown(maxPlayers: int, turnIndex: Option<int>, steps: seq<Step>)
    ensures var r := Run(maxPlayers, turnIndex, steps);
      ShutDown(steps) ==> r.game.timers.live == {} && !r.game.drawPending
    decreases |steps|
  {
    hide Next, RoomOk;
    DestroyedExactly(maxPlayers, turnIndex, steps);
    if steps != [] {
      var front := steps[..|steps| - 1];
      NoTimersAfterShutdown(maxPlayers, turnIndex, front);
      DestroyedExactly(maxPlayers, turnIndex, front);
      RunOk(maxPlayers, turnIndex, front);
      DeadTimers(Run(maxPlayers, turnIndex, front), steps[|steps| - 1]);
    }
  }

  // ----- The script's refusals -----

  /**
    The code that answers a player's action, if it is refused: by the phase, by the player's
    account, and by whose turn it is.
  */
  function RefusalCode(g: Game, a: Account, p: PlayerId, action: Action): Option<int>
    requires p in g.players
  {
    match action
    case Bet(amount) =>
      if !g.phase.Betting? then Some(40003)
      else if !(10 <= amount <= 500) then Some(40004)
      else if a.staked + amount > 1000 then Some(40005)
      else None
    case Unknown => Some(40002)
    case Double =>
      if !g.phase.Playing? then None
      else if !DoubleTurn(g, p) then Some(40006)
      else if |g.players[p].hand| != 2 then Some(40007)
      else if a.staked + a.bet > 1000 then Some(40005)
      else None
    case _ => if g.phase.Playing? && !IsCurrent(g, p) then Some(40006) else None
  }

  /** A refusal changes nothing else; without one nothing is sent to the player. */
  lemma ActAnswers(g: Game, a: Account, p: PlayerId, action: Action)
    requires p in g.players && SeatAgrees(g, a, p) && !Act(g, p, action).crashed
    ensures var h, code := Act(g, p, action), RefusalCode(g, a, p, action);
      if code.Some? then h == Refuse(g, p, code.value) else h.outbox == g.outbox
  {
    hide Value, AdvanceTurn, DealHands, Due;
    forall h: Game ensures AdvanceTurn(h).outbox == h.outbox {
      AdvanceStops(h);
    }
  }

  /** A join is refused exactly after the start, with 40001, and changes nothing then. */
  lemma JoinAnswers(g: Game, p: PlayerId)
    ensures if g.phase.Waiting? then Join(g, p).outbox == g.outbox && p in Join(g, p).players
            else Join(g, p) == Refuse(g, p, 40001)
  {
  }

  /** A bet of somebody who is not seated has no effect, while bets are taken. */
  lemma StrangerBets(g: Game, p: PlayerId, amount: int)
    requires g.phase.Betting? && p !in g.players
    ensures Act(g, p, Bet(amount)) == g
  {
  }

  function Refusals(outbox: seq<Notice>): seq<Notice> {
    if outbox == [] then []
    else
      var last := outbox[|outbox| - 1];
      Refusals(outbox[..|outbox| - 1]) + if last.Refused? then [last] else []
  }

  lemma RefusalsMore(outbox: seq<Notice>, last: Notice)
    ensures Refusals(outbox + [last]) == Refusals(outbox) + if last.Refused? then [last] else []
  {
    assert (outbox + [last])[..|outbox|] == outbox;
  }

  /** The refusal that a step draws from the script, if any. */
  ghost function RefusedBy(maxPlayers: int, turnIndex: Option<int>, front: seq<Step>, step: Step): seq<Notice> {
    var r := Run(maxPlayers, turnIndex, front);
    if Live(r) && MoveOf(r, step).Some? && MoveOf(r, step).value.PlayerAction?
       && MoveOf(r, step).value.p in r.game.players
    then
      var p := MoveOf(r, step).value.p;
      var code := RefusalCode(r.game, AccountOf(maxPlayers, turnIndex, front, p), p, MoveOf(r, step).value.action);
      if code.Some? then [Refused(p, code.value)] else []
    else []
  }

  ghost function RefusedIn(maxPlayers: int, turnIndex: Option<int>, steps: seq<Step>): seq<Notice>
    decreases |steps|
  {
    if steps == [] then []
    else
      var front := steps[..|steps| - 1];
      RefusedIn(maxPlayers, turnIndex, front) + RefusedBy(maxPlayers, turnIndex, front, steps[|steps| - 1])
  }

  lemma MoveRefuses(g: Game, a: Account, move: Move, cap: nat)
    requires TableOk(g, cap) && !g.crashed && Allowed(g, move, cap) && !Play(g, move).crashed
    requires move.PlayerAction? ==> SeatAgrees(g, a, move.p)
    ensures Refusals(Play(g, move).outbox) == Refusals(g.outbox) +
      if move.PlayerAction? && RefusalCode(g, a, move.p, move.action).Some?
      then [Refused(move.p, RefusalCode(g, a, move.p, move.action).value)] else []
  {
    hide TableOk, Act, Leave, Draw, RefusalCode, Refusals;
    match move
    case PlayerAction(p, action) =>
      ActAnswers(g, a, p, action);
      if RefusalCode(g, a, p, action).Some? {
        RefusalsMore(g.outbox, Refused(p, RefusalCode(g, a, p, action).value));
      }
    case PlayerLeave(p) => LeaveSaysNothing(g, p);
    case DealerDraw => DrawReports(g);
    case _ =>
  }

  lemma LeaveSaysNothing(g: Game, p: PlayerId)
    ensures Leave(g, p).outbox == g.outbox
  {
    hide Value, IndexOf, Departure;
    AdvanceStops(Unseat(g, p));
  }

  lemma DrawReports(g: Game)
    ensures Refusals(Draw(g).outbox) == Refusals(g.outbox)
  {
    hide Value, SettleAll, Refusals;
    forall report: Notice | !report.Refused? ensures Refusals(g.outbox + [report]) == Refusals(g.outbox) {
      RefusalsMore(g.outbox, report);
    }
  }

  lemma StepRefuses(maxPlayers: int, turnIndex: Option<int>, front: seq<Step>, step: Step)
    requires var r := Run(maxPlayers, turnIndex, front); Live(r) && Live(Next(r, step))
    ensures var r := Run(maxPlayers, turnIndex, front);
      Refusals(Next(r, step).game.outbox) == Refusals(r.game.outbox) + RefusedBy(maxPlayers, turnIndex, front, step)
  {
    hide TableOk, Next, Play, Run, AccountOf, RefusalCode, Refusals;
    var r := Run(maxPlayers, turnIndex, front);
    RunOk(maxPlayers, turnIndex, front);
    if step.Deliver? && step.msg.MsgShutdown? {
      ShutdownIsNotLive(r);
    } else {
      StepIsMove(r, step);
      var move := MoveOf(r, step);
      if move.Some? {
        MoveAllowed(r, step);
        var a := Account(0, 0);
        if move.value.PlayerAction? {
          a := AccountOf(maxPlayers, turnIndex, front, move.value.p);
          AccountsInRuns(maxPlayers, turnIndex, front, move.value.p);
        }
        MoveRefuses(r.game, a, move.value, Capacity(r.maxPlayers));
      }
    }
  }

  /**
    In every live run the script's refusals are, in order, one for each action that its phase, its
    sender's account or its sender's turn forbids, and each says which it was.
  */
  lemma {:induction false} RefusalsAnswerActions(maxPlayers: int, turnIndex: Option<int>, steps: seq<Step>)
    requires Live(Run(maxPlayers, turnIndex, steps))
    ensures Refusals(Run(maxPlayers, turnIndex, steps).game.outbox) == RefusedIn(maxPlayers, turnIndex, steps)
    decreases |steps|
  {
    hide Next, RoomOk, Live, RunFrom, RefusedBy, Refusals;
    if steps == [] {
      NothingRefused(maxPlayers, turnIndex);
    } else {
      var front, last := steps[..|steps| - 1], steps[|steps| - 1];
      var r := Run(maxPlayers, turnIndex, front);
      RunStep(maxPlayers, turnIndex, steps);
      RunOk(maxPlayers, turnIndex, front);
      if !Live(r) {
        DeadStaysDead(r, last);
      }
      RefusalsAnswerActions(maxPlayers, turnIndex, front);
      StepRefuses(maxPlayers, turnIndex, front, last);
    }
  }

  lemma NothingRefused(maxPlayers: int, turnIndex: Option<int>)
    ensures Refusals(Run(maxPlayers, turnIndex, []).game.outbox) == []
  {
  }
}
