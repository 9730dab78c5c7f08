/**
  The room actor: how GameActor turns inbox messages into script hooks and hub traffic.
  It owns membership, capacity, ownership and the playing flag; the script is called only
  through `Trigger`.
*/
module Room {
  import opened Prelude
  import opened Blackjack

  datatype Member = Member(nickname: string, isReady: bool)

  datatype RoomStatus = StatusPlaying | StatusClosed

  /** What the actor sends to the hub and reports to the room manager. */
  datatype Event =
    | PlayerJoined(p: PlayerId, count: nat)
    | PlayerLeft(p: PlayerId)
    | PlayerReady(p: PlayerId)
    | AllReady(count: nat)
    | OwnerChange(owner: PlayerId)
    | GameStarted
    | Error(to: PlayerId, code: int)
    | Status(status: RoomStatus)

  datatype Hook =
    | OnPlayerJoin(p: PlayerId)
    | OnPlayerLeave(p: PlayerId)
    | OnGameStart
    | OnPlayerAction(p: PlayerId, action: Action)
    | OnTick
    | OnTimer
    | OnRestore
    | OnGameEnd

  /**
    Inbox messages.  `info` is the join payload when it has the right type.  `heir` is the
    member that Go's map iteration happens to yield first, `clock` what the shuffle reads.
  */
  datatype Message =
    | MsgPlayerJoin(p: PlayerId, info: Option<string>)
    | MsgPlayerLeave(p: PlayerId, heir: PlayerId)
    | MsgPlayerReady(p: PlayerId)
    | MsgPlayerAction(p: PlayerId, action: Action)
    | MsgGameStart(clock: seq<int>)
    | MsgGameTick
    | MsgTimer(hasData: bool)
    | MsgRestore
    | MsgShutdown
    | MsgOther

  datatype Room = Room(
    players: map<PlayerId, Member>,
    ownerID: PlayerId,
    maxPlayers: int,
    isPlaying: bool,
    destroyed: bool,        // the engine's vm is nil
    ticks: nat,
    game: Game,             // the script's state inside the engine
    events: seq<Event>,
    hooks: seq<Hook>)

  function NewRoom(maxPlayers: int, turnIndex: Option<int>): Room {
    Room(map[], EMPTY_ID, maxPlayers, false, false, 0, Init(turnIndex), [], [])
  }

  function Emit(r: Room, e: Event): Room { r.(events := r.events + [e]) }

  /** TriggerHook: refused once the engine is destroyed. */
  function Trigger(r: Room, h: Hook, game: Game): Room {
    if r.destroyed then r else r.(hooks := r.hooks + [h], game := game)
  }

  function HandleJoin(r: Room, p: PlayerId, info: Option<string>): (after: Room)
    ensures after.maxPlayers == r.maxPlayers
  {
    if r.isPlaying then Emit(r, Error(p, 46402))
    else if |r.players| >= r.maxPlayers then Emit(r, Error(p, 46901))
    else if p in r.players || info.None? then r
    else
      var owner := if |r.players| == 0 then p else r.ownerID;
      var seated := r.(ownerID := owner, players := r.players[p := Member(info.value, false)]);
      var told := Trigger(seated, OnPlayerJoin(p), Play(r.game, PlayerJoin(p)));
      Emit(told, PlayerJoined(p, |told.players|))
  }

  /** Go's map iteration may yield any member first; a suggestion that is no member stands for some member. */
  ghost function Heir(players: map<PlayerId, Member>, suggestion: PlayerId): (h: PlayerId)
    requires |players| > 0
    ensures h in players
    ensures suggestion in players ==> h == suggestion
  {
    if suggestion in players then suggestion
    else
      assert players.Keys != {};
      var h :| h in players.Keys; h
  }

  /** A leave up to the broadcast: the member is removed, the script told, then the room. */
  function Departed(r: Room, p: PlayerId): Room {
    Emit(Trigger(r.(players := r.players - {p}), OnPlayerLeave(p), Play(r.game, PlayerLeave(p))), PlayerLeft(p))
  }

  /** The hand-over if the one who left owned the room. */
  ghost function Inherited(r: Room, p: PlayerId, heir: PlayerId): Room {
    if r.ownerID == p && |r.players| > 0
    then Emit(r.(ownerID := Heir(r.players, heir)), OwnerChange(Heir(r.players, heir)))
    else r
  }

  ghost function HandleLeave(r: Room, p: PlayerId, heir: PlayerId): (after: Room)
    ensures after.maxPlayers == r.maxPlayers
  {
    if p !in r.players then r
    else
      var owned := Inherited(Departed(r, p), p, heir);
      if |owned.players| == 0 && !owned.isPlaying then Emit(owned, Status(StatusClosed)) else owned
  }

  predicate Everyone(players: map<PlayerId, Member>) {
    forall p :: p in players ==> players[p].isReady
  }

  function HandleReady(r: Room, p: PlayerId): (after: Room)
    ensures after.maxPlayers == r.maxPlayers
  {
    if p !in r.players then r
    else
      var ready := Emit(r.(players := r.players[p := r.players[p].(isReady := true)]), PlayerReady(p));
      if Everyone(ready.players) then Emit(ready, AllReady(|ready.players|)) else ready
  }

  function HandleAction(r: Room, p: PlayerId, action: Action): (after: Room)
    ensures after.maxPlayers == r.maxPlayers
  {
    if !r.isPlaying then Emit(r, Error(p, 46001))
    else if p !in r.players then r
    else
      var game := Play(r.game, PlayerAction(p, action));
      var told := Trigger(r, OnPlayerAction(p, action), game);
      if r.destroyed || (game.crashed && !r.game.crashed) then Emit(told, Error(p, 47001)) else told
  }

  function HandleStart(r: Room, clock: seq<int>): (after: Room)
    ensures after.maxPlayers == r.maxPlayers
  {
    if r.isPlaying then r
    else
      var playing := Emit(r.(isPlaying := true), Status(StatusPlaying));
      Emit(Trigger(playing, OnGameStart, Play(r.game, GameStart(clock))), GameStarted)
  }

  /** Destroy clears the timer table, so a scheduled draw never runs. */
  function Destroy(game: Game): Game {
    game.(timers := game.timers.(live := {}), drawPending := false)
  }

  function HandleShutdown(r: Room): (after: Room)
    ensures after.maxPlayers == r.maxPlayers
  {
    var ended := if r.isPlaying then Trigger(r, OnGameEnd, r.game).(isPlaying := false) else r;
    Emit(ended.(destroyed := true, game := Destroy(ended.game)), Status(StatusClosed))
  }

  ghost function Handle(r: Room, msg: Message): (after: Room)
    ensures after.maxPlayers == r.maxPlayers
  {
    match msg
    case MsgPlayerJoin(p, info) => HandleJoin(r, p, info)
    case MsgPlayerLeave(p, heir) => HandleLeave(r, p, heir)
    case MsgPlayerReady(p) => HandleReady(r, p)
    case MsgPlayerAction(p, action) => HandleAction(r, p, action)
    case MsgGameStart(clock) => HandleStart(r, clock)
    case MsgGameTick => if r.isPlaying then Trigger(r.(ticks := r.ticks + 1), OnTick, r.game) else r
    case MsgTimer(hasData) => if hasData then Trigger(r, OnTimer, r.game) else r
    case MsgRestore => Trigger(r, OnRestore, r.game)
    case MsgShutdown => HandleShutdown(r)
    case MsgOther => r
  }

  /** Whether the handler returns an error, which BaseActor counts. */
  predicate HandlerFails(r: Room, msg: Message) {
    match msg
    case MsgOther => true
    case MsgPlayerJoin(p, info) =>
      !r.isPlaying && |r.players| < r.maxPlayers && p !in r.players && info.None?
    case _ => false
  }

  /** The room advances by a message, or by the dealer's scheduled draw. */
  datatype Step = Deliver(msg: Message) | TimerFires

  ghost function Next(r: Room, step: Step): (after: Room)
    ensures after.maxPlayers == r.maxPlayers
  {
    match step
    case Deliver(msg) => Handle(r, msg)
    case TimerFires =>
      if !r.destroyed && r.game.drawPending then r.(game := Play(r.game, DealerDraw)) else r
  }

  ghost function RunFrom(r: Room, steps: seq<Step>): Room
    decreases |steps|
  {
    if steps == [] then r else Next(RunFrom(r, steps[..|steps| - 1]), steps[|steps| - 1])
  }

  ghost function Run(maxPlayers: int, turnIndex: Option<int>, steps: seq<Step>): Room {
    RunFrom(NewRoom(maxPlayers, turnIndex), steps)
  }
}
