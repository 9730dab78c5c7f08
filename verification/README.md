# Verification of the game platform's core

This project models the parts of the platform where several pieces of mutable state have to agree,
and proves what they keep over whole runs:

- **The blackjack script inside its room.** The script (a five-phase state machine over a shoe of
  312 cards, hands, chips, a pot and a turn order that leaves splice) has few guards of its own.
  The room actor owns membership, capacity, ownership and the playing flag and is the only caller
  of the script. The two are modelled as one system, and the main results are about every sequence
  of messages and timer firings that the room can receive.
- **The script engine's shuffle and timer table**, on which the deal and the dealer rely.
- **The actor runtime**: a bounded inbox with many senders, one consumer, cancellation, a drain and
  restarts, and the actor registry. Both are transition systems over atomic steps, so a theorem
  about all step sequences is a theorem about all interleavings.
- **The WebSocket gateway**: three redundant indices, a counter, and delivery through bounded
  queues that drop.
- **The client's reconnect machine**: socket events, user calls and timers in any order.

`dafny verify dfyconfig.toml` checks everything.

## How the project is organised

A part of the program is described twice. A module of functions (`Blackjack`, `Room`, `Inbox`,
`Registry`, `Gateway`, `Reconnect`) says what each call does to a state value; the theorems are
about runs of those functions. A class (`GameServer.GameServer`, `GameActor.GameActor`,
`BaseActor.BaseActor`, `ActorSystem.ActorSystem`, `GatewayServer.Hub`, `Connection.Connection`,
`Engine.TimerTable`) has the program's fields and loops, and each of its methods is proved to do
what the functions say. `TableInvariants.TableOk` is the invariant of the card table; the modules
ending in `Laws` prove that every call keeps it, and `RoomLaws`, `RoundTermination`, `RoundEnd`,
`RoundTheorems`, `TurnTheorems`, `LostTurns` and `DeckLimit` draw the conclusions for whole runs.
`Accounts` (money), `CardFlow` (cards), `Answers` (what the room and the script say), `Letters` (the
inbox), `Delivery` (the gateway's queues) and `Retries` (the client) tell the outcome of a run a
second time, from its messages and events, and prove that the two agree.

History variables (`hist`, `events`, `hooks`, `accepted`, `offered`, `delays` and the like) record
what happened; nothing in the modelled code reads them.

## Facts about the code that shape the results

- `handleDouble` compares `state.turnIndex`, which nothing assigns
  (`examples/games/blackjack/server/main.ts:288`). The model keeps the field: `turnIndex` is absent
  as written, and the run theorems hold for every value it could have. As written only a player
  whose id is the empty string can double (`DoubleAsWritten`), in turn or out of turn; with an index
  below the number of seats the guard is the one of hit and stand (`DoubleAsIntended`).
  `InTurnExactly` says for which rooms and joiners only the current player's actions are accepted. The room actor
  accepts an empty player id, but the repository's own senders format a numeric user id
  (`cmd/game-service/main.go:88`, `internal/game/handler.go:209`), so it takes another caller of the
  actor to bring one in.
- A player may bet again before everybody has. The second bet replaces `bet`, but the first stake
  stays in the pot (`main.ts:183-185`). The ledger therefore counts forfeited stakes.
- A leave during play always advances the turn, whoever left (`main.ts:119-121`), while the order
  shifts under the index. It takes the turn from the current player, from the next one, or from
  both, although the comment at `main.ts:330` has all players done when the dealer plays.
  `LeaveRobsWhom` names them, `IdleAreRobbed` shows that nobody else reaches the dealer's phase
  without having acted, and `NobodyRobbedExactly` says which rooms are spared. What does hold is
  that the index moves by one and that nobody's turn comes twice (`TurnMovesByOne`,
  `NeverCurrentAgain`).
- `Stop` can return while a `Start` is between its compare-and-swap and `wg.Add`; then a handler
  runs after the stop. `StopIsFinalExactly` shows that this is the only way.
- `Unregister` of a player's first connection removes the index entries of the second one.
  `InverseExactlyOneAtATime` shows that two connections at once are the only cause.
- A `connect` while a retry is pending makes the client forget the pending timer, which then
  reconnects after a `disconnect`. `DisconnectIsFinalExactly` states the condition.
- When everybody leaves during play, nothing advances the turn any more (`main.ts:119`): the phase
  stays playing and nobody can join. `RoundEndsExactly` shows that from every other state of the
  playing phase the round can still be ended.
- `maxPlayers` in `examples/games/blackjack/manifest.json` is 7, and a room request may ask for up to
  100 (`internal/game/model.go:90`). `DeckSufficesExactly` shows that six decks suffice for 67 seats
  and not for 68.

## Model

| member | source | states |
|---|---|---|
| Cards.HandValue | examples/games/blackjack/server/main.ts:48-60 | the two loops of handValue end in the closed form of the value: aces as 1, and ten more if there is an ace and it fits |
| Cards.HandValueOptimal | examples/games/blackjack/server/main.ts:48-60 | over all choices of 1 or 11 for each ace, the value is the largest total not above 21, or the all-aces-as-1 total exactly if none fits; at most one ace counts 11 |
| Cards.HandValuePermutation | examples/games/blackjack/server/main.ts:48-60 | the value depends on the multiset of cards only |
| Cards.CreateDeck | examples/games/blackjack/server/main.ts:37-46 | the nested loops produce the deck, suit by suit in rank order |
| Cards.DeckIsStandard | examples/games/blackjack/server/main.ts:34-46 | every suit and rank occurs exactly once in a deck |
| Cards.BuildShoe | examples/games/blackjack/server/main.ts:127-131 | the loop of onGameStart concatenates six decks |
| Cards.WeighShoe | examples/games/blackjack/server/main.ts:127-131 | the shoe holds six of every card and weighs 2040 with aces as 1 |
| Engine.Shuffle | pkg/engine/js_engine.go:350-365 | the swap loop leaves its argument alone and computes the shuffle in a fresh slice, for any clock readings and Go's signed remainder |
| Engine.ShufflePermutes | pkg/engine/js_engine.go:350-365 | whatever the clock reads, the result is a permutation of the argument |
| Engine.ShuffleIsExactlyPermutation | pkg/engine/js_engine.go:350-365 | the possible results are exactly the permutations: no order is excluded |
| Engine.SetTimerTakesOneSlot | pkg/engine/js_engine.go:283-296 | a timer is refused exactly at the limit; otherwise it takes one slot under an unused id, and clearing that id undoes it |
| Engine.TimerTableBounded | pkg/engine/js_engine.go:283-336 | in every sequence of set, clear, fire, uuid and destroy the table stays within the limit and its ids were all handed out |
| Engine.TimerIdsIncrease | pkg/engine/js_engine.go:283-318 | in every such sequence a later timer gets a larger id than any earlier one, cleared or not: ids are never handed out twice |
| Engine.TimerTable.SetTimeout | pkg/engine/js_engine.go:283-318 | the in-place table does what the specification says, refusal included; setInterval takes a slot the same way |
| Engine.TimerTable.ClearTimeout | pkg/engine/js_engine.go:320-327 | clearing removes that id and nothing else |
| Engine.TimerTable.Destroy | pkg/engine/js_engine.go:201-207 | the loop empties the table and keeps the id counter |
| TurnLaws.AdvanceStops | examples/games/blackjack/server/main.ts:325-345 | advanceTurn stops at a strictly later player who can act, having passed only players who cannot, or else enters the dealer's phase once; it changes nothing else |
| CardLaws.DealsInOrder | examples/games/blackjack/server/main.ts:203-207 | the k-th player of the order gets the two cards that lie 2k from the top of the deck, and keeps chips and bet |
| CardLaws.DealWeighs | examples/games/blackjack/server/main.ts:203-210 | dealing moves cards from the deck to the hands without losing or adding one, by every measure |
| CardLaws.CardsConserved | examples/games/blackjack/server/main.ts:124-132 | equal weights mean that deck, hands, dealer's hand and leavers' cards are together exactly six of every card |
| DealerLaws.DealerDraws | examples/games/blackjack/server/main.ts:359-372 | a draw below 17 keeps the dealer on a path that ends by the twelfth card with a value of at most 26 |
| DealerLaws.PlayerDraws | examples/games/blackjack/server/main.ts:244-266 | a player who may hit ends with at most 21 cards and 30 points with aces as 1, and above 20 points is done |
| ChipLaws.SettledSeats | examples/games/blackjack/server/main.ts:385-407 | the loop settles every seat exactly once and by the rules of the game, although it reads a bust from a flag |
| ChipLaws.SettledReport | examples/games/blackjack/server/main.ts:382-424 | the winners list is the winning players in turn order, and the scores are everybody's chips |
| ChipLaws.SettledPaid | examples/games/blackjack/server/main.ts:385-407 | the players' chips grow by exactly what the settlement pays |
| ChipLaws.WinnersInOrder | examples/games/blackjack/server/main.ts:382-402 | the winners list has no duplicates, names every winner and nobody else, and follows the turn order |
| Accounts.BetMovesTheAmount | examples/games/blackjack/server/main.ts:164-197 | a bet is taken exactly while betting, from 10 to 500 and within the chips; it is then that player's bet, has left the chips and is in the pot, and nobody else's chips or bet change, even if it completes the betting and the cards are dealt |
| Accounts.DoubleMovesTheBet | examples/games/blackjack/server/main.ts:284-323 | an accepted double moves the bet once more from the chips to the pot and doubles it; any other double moves no money |
| Accounts.DrawPays | examples/games/blackjack/server/main.ts:359-409 | the scheduled draw pays nothing below 17, and from 17 on it gives every seat twice its bet, its bet or nothing as the two hands compare |
| TableLaws.TableOkKept | examples/games/blackjack/server/main.ts:82-427 | every call the room lets through keeps the table invariant: members, seats, turns, dealer, cards, crowd and chips |
| TableLaws.ThrowsExactly | examples/games/blackjack/server/main.ts:199-376 | in a consistent table an allowed call throws exactly if it needs more cards than the deck holds, never for a missing seat |
| TableLaws.ResolveSettles | examples/games/blackjack/server/main.ts:377-409 | in a consistent table resolveGame settles all seats by the rules and changes nothing but seats, phase and the report; what it pays is what the chips grow by |
| RoomLaws.MembershipAgrees | pkg/actor/game_actor.go:133-330 | in every run up to the first Destroy the actor's players, the script's players and the turn order are the same set, without duplicates; the room plays exactly when the script has left its waiting phase |
| RoomLaws.OwnerSeated | pkg/actor/game_actor.go:133-247 | in every run the owner is a member of a non-empty room, and the room never exceeds its capacity |
| DeckLimit.DeckSufficesExactly | examples/games/blackjack/server/main.ts:124-376 | no hook throws in any run, that is, no pop ever finds the deck empty, if and only if the room has at most 67 seats |
| DeckLimit.PlansRunOut | examples/games/blackjack/server/main.ts:199-267 | any cut of the shoe into hands that bust one after another, a last one that stays below 21 and the dealer's two cards is dealt and drawn to the last card by some run, and the next hit throws |
| RoomLaws.HookProtocol | pkg/actor/game_actor.go:107-384 | in every run the script sees joins of unseated players, at most one start, then only leaves and actions of seated players and ticks, and the end last and only if started |
| RoomLaws.BroadcastsDetermineRoom | pkg/actor/game_actor.go:133-276 | folding the broadcasts of any run yields the players, ready flags and owner; all_ready and owner_change are sent exactly when the listener sees them due |
| Answers.EventsAnswerMessages | pkg/actor/game_actor.go:133-384 | after any run, what a message lets the room say is decided by the events so far, the room's size and whether the script fails: which broadcasts, which error code, which status; only the heir is free |
| Answers.HooksAnswerMessages | pkg/actor/game_actor.go:107-384 | after any run without a shutdown a message reaches the script as the one hook that the calls before it allow, or not at all, and after a shutdown never; ticks are counted exactly while the game is on |
| Answers.NamesFollowJoins | pkg/actor/game_actor.go:147-167 | in every run a member goes by the nickname of the message that seated it |
| Answers.NoTimersAfterShutdown | pkg/actor/game_actor.go:367-384 | in every run, after a shutdown no script timer is live and no draw is due |
| RoundLaws.NeverCurrentAgain | examples/games/blackjack/server/main.ts:110-122 | once passed, a player is never current again in any continuation, however leaves splice the order |
| RoundTermination.AcceptedLowersRank | examples/games/blackjack/server/main.ts:234-345 | every accepted hit, stand, double or leave lowers the round's measure |
| RoundTermination.RefusedChangesNothing | examples/games/blackjack/server/main.ts:234-302 | every other action of the playing phase changes nothing and is answered with one refusal |
| Answers.JoinAnswers | examples/games/blackjack/server/main.ts:82-87 | a join is refused exactly after the start, with 40001, and then changes nothing |
| Answers.RefusalsAnswerActions | examples/games/blackjack/server/main.ts:143-302 | in every live run the script's refusals are, in order, one for each action that the phase, the sender's account or the turn forbids, with the code that says which |
| RoundTermination.AcceptedMovesBounded | examples/games/blackjack/server/main.ts:234-345 | after any run and however long the continuation, at most 20 hits, stands, doubles and leaves per seated player are accepted, less what is left of the measure |
| RoundTermination.DealerFinishes | examples/games/blackjack/server/main.ts:347-375 | from any run in the dealer's phase, eleven firings resolve the round, with a value from 17 to 26, at most twelve cards and eleven timer slots, unless the deck runs out, which it cannot with at most 67 seats |
| RoundTermination.TimersAndEntries | pkg/engine/js_engine.go:283-296 | in every run the timers, never freed on firing, stay at eleven of fifty, dealerPlay is entered at most once, and while the dealer plays a draw is scheduled |
| RoundTermination.DrawRefusedExactly | pkg/engine/js_engine.go:283-296 | the engine would refuse to schedule a draw exactly at fifty live timers |
| RoundEnd.RankIsZeroExactly | examples/games/blackjack/server/main.ts:110-345 | the measure is used up exactly when the playing phase is over or nobody is seated |
| RoundEnd.RoundEndsExactly | examples/games/blackjack/server/main.ts:110-375 | in every live run state of the playing phase some continuation ends the round (or, above 67 seats, exhausts the deck) if and only if somebody is seated |
| RoundEnd.DesertedRoomIsClosed | pkg/actor/game_actor.go:133-139 | a room that everybody left during play stays in the playing phase without members for ever, short of a shutdown, and answers every join with 46402 |
| RoundTheorems.CardsConservedInRuns | examples/games/blackjack/server/main.ts:110-132 | in every run, from the start on, deck, hands, dealer's hand and leavers' cards are as a multiset the six decks |
| CardFlow.DealFlows | examples/games/blackjack/server/main.ts:203-207 | the deal gives everybody the cards at the places of the deal order, counted from the top of the deck |
| CardFlow.HandsFollowShoe | examples/games/blackjack/server/main.ts:124-376 | in every live run the deck is the shuffled shoe less the cards taken from its top, and every hand, the dealer's too, is the shoe's cards at the places where its owner took one, in order |
| TurnTheorems.TurnMachine | examples/games/blackjack/server/main.ts:110-345 | in every run, while playing with somebody seated, the index is in range, its player can act, and everybody ahead holds two untouched cards (but for an empty id that doubled out of turn) |
| TurnTheorems.TurnIndexInRuns | examples/games/blackjack/server/main.ts:284-292 | no run assigns turnIndex |
| TurnTheorems.TurnMovesByOne | examples/games/blackjack/server/main.ts:110-345 | unless somebody seated can double out of turn, every hit, stand, double and leave moves the index by exactly one if it advances the turn and not at all otherwise: the skip branch is never taken |
| TurnTheorems.IndexFollowsInRuns | examples/games/blackjack/server/main.ts:110-345 | in every run in which nobody can stray each step moves the index by one position or none, and every accepted hit, stand and double is the current player's |
| TurnTheorems.InTurnExactly | examples/games/blackjack/server/main.ts:284-345 | over all runs of a room with joiners from a given set, the index moves by one position at a time and only the current player's actions are accepted, each if and only if the room has at most one seat, or no joiner has the empty id, or no other joins, or turnIndex is given and at most 1; who is passed by a leave is another matter |
| TurnTheorems.DoubleAsWritten | examples/games/blackjack/server/main.ts:284-302 | with turnIndex absent a double is answered with "not your turn" exactly for ids other than the empty string |
| TurnTheorems.DoubleAsIntended | examples/games/blackjack/server/main.ts:284-323 | with turnIndex below the number of seats a double is refused with 40006 exactly for whoever is not current, and goes through exactly for a current player with two cards and the chips, who pays the bet again into the pot, gets the top card, has stood and is passed |
| TurnTheorems.StrayActionExactly | examples/games/blackjack/server/main.ts:234-302 | at any table an action of somebody who is not current is accepted exactly if it is the double of a seated empty id with two cards and the chips, while turnIndex is absent or not below the number of seats |
| TurnTheorems.StrayDoubleRobs | examples/games/blackjack/server/main.ts:284-345 | wherever the doubler sits, passed or not, such a double gives it a third card and takes the turn from the current player, who has not acted |
| TurnTheorems.TurnsBreakInSomeRun | examples/games/blackjack/server/main.ts:284-345 | in every room where somebody can stray there is such a run: two players bet, the second doubles first, the dealer plays, and the first never acted |
| LostTurns.LeaveRobsWhom | examples/games/blackjack/server/main.ts:110-122 | unless somebody can stray, a leave during play makes lose the turn, without having acted, exactly the current player, if another one leaves, and the next one, if the leaver sits at or before the current one |
| LostTurns.LeaveRobsExactly | examples/games/blackjack/server/main.ts:110-122 | so a leave during play robs somebody exactly unless it is that of the current player who is last in the order |
| LostTurns.StepRobsExactly | examples/games/blackjack/server/main.ts:110-345 | no other step of a room robs anybody: a step robs exactly if it is such a leave |
| LostTurns.IdleAreRobbed | examples/games/blackjack/server/main.ts:110-375 | in every run in which nobody can stray, a player seated in the dealer's phase or at the end has neither stood nor bust if and only if some step of the run robbed that player |
| LostTurns.EverybodyActed | examples/games/blackjack/server/main.ts:325-333 | in such a run without such a leave everybody seated has stood or bust once the dealer plays |
| LostTurns.LeaveRobsInSomeRun | examples/games/blackjack/server/main.ts:110-122 | in every room of at least two seats and for any two players there is such a run: both bet, the second leaves, the dealer plays, and the first, whose turn it was, never acted |
| LostTurns.NobodyRobbedExactly | examples/games/blackjack/server/main.ts:110-345 | no step of any run robs anybody if and only if the room has at most one seat or at most one player can join |
| RoundTheorems.ResolutionFollowsRules | examples/games/blackjack/server/main.ts:377-427 | in every run the resolving draw settles seats, winners, scores and dealer result as a pure function of final hands and bets |
| Accounts.MoneyFollowsMessages | examples/games/blackjack/server/main.ts:89-407 | in every live run a seated player's bet is the amount of the last message that was taken, twice that after a double, and the chips are 1000 less all amounts taken, at the end plus what the hand returns against the dealer's: all told from the messages and the hands |
| Accounts.RoundBalancesExactly | examples/games/blackjack/server/main.ts:164-407 | at the end of a round a seated player has 1000 chips plus the bet, 1000, or 1000 less the bet, as the hands compare, if and only if that player never bet over a bet |
| Accounts.PotIsAllStakes | examples/games/blackjack/server/main.ts:183-301 | in every live run the pot is the sum of all amounts ever staked, by those who left too |
| RoundTheorems.ChipLedger | examples/games/blackjack/server/main.ts:82-427 | in every run pot, chips on the table and chips carried off equal 1000 per join plus what was paid; chips are never negative; the pot covers the bets, exactly if nothing was forfeited |
| RoundTheorems.ForfeitsExplained | examples/games/blackjack/server/main.ts:110-187 | money is forfeited exactly by betting over a bet or leaving with one, and by that amount |
| RoundTheorems.PotIsBetsExactly | examples/games/blackjack/server/main.ts:110-187 | in every live run the pot equals the bets on the table if and only if no step of it was a bet by a player who had bet, or the leave of one |
| GameServer.GameServer.constructor | examples/games/blackjack/server/main.ts:68-80 | onInit sets up the waiting table |
| GameServer.GameServer.OnPlayerJoin | examples/games/blackjack/server/main.ts:82-108 | a join is refused with 40001 outside waiting, and otherwise adds one seat at the end of the order |
| GameServer.GameServer.OnPlayerLeave | examples/games/blackjack/server/main.ts:110-122 | the seat and its place in the order go, and during play the turn advances if anybody is left |
| GameServer.GameServer.OnGameStart | examples/games/blackjack/server/main.ts:124-141 | the shuffled shoe becomes the deck |
| GameServer.GameServer.OnPlayerAction | examples/games/blackjack/server/main.ts:143-162 | each action reaches its handler, anything else is refused with 40002 |
| GameServer.GameServer.HandleBet | examples/games/blackjack/server/main.ts:164-197 | refusals 40003, 40004 and 40005, the stake, and the deal exactly when every seat has bet |
| GameServer.GameServer.DealCards | examples/games/blackjack/server/main.ts:199-232 | the popping loop deals what the specification deals, and throws exactly if a seat is missing or the deck is too short |
| GameServer.GameServer.HandleHit | examples/games/blackjack/server/main.ts:234-267 | the in-place hit has the specified outcome, refusal and throw included |
| GameServer.GameServer.HandleStand | examples/games/blackjack/server/main.ts:269-282 | the in-place stand has the specified outcome |
| GameServer.GameServer.HandleDouble | examples/games/blackjack/server/main.ts:284-323 | the in-place double has the specified outcome, with the turnIndex guard as written |
| GameServer.GameServer.AdvanceTurn | examples/games/blackjack/server/main.ts:325-345 | the recursive advance over fields terminates and reaches the specified player or the dealer |
| GameServer.GameServer.DealerPlay | examples/games/blackjack/server/main.ts:347-375 | the dealer's phase begins with a scheduled draw, if the engine grants the timer |
| GameServer.GameServer.Draw | examples/games/blackjack/server/main.ts:359-372 | a draw takes a card and reschedules below 17, and resolves from 17 on |
| GameServer.GameServer.SettleSeat | examples/games/blackjack/server/main.ts:389-404 | the branches for one player give the specified result and payout |
| GameServer.GameServer.ResolveGame | examples/games/blackjack/server/main.ts:377-427 | the loop over the order builds the specified seats, winners, scores and report |
| GameActor.GameActor.constructor | pkg/actor/game_actor.go:87-103 | an empty room around an initialised script |
| GameActor.GameActor.TriggerHook | pkg/engine/js_engine.go:132-193 | a hook is recorded and run once while the engine lives; afterwards it is an error without effect |
| GameActor.GameActor.HandlePlayerJoin | pkg/actor/game_actor.go:133-196 | refusals 46402 and 46901, silent duplicates, the failing payload, and the first joiner as owner |
| GameActor.GameActor.HandlePlayerLeave | pkg/actor/game_actor.go:199-247 | the departure, the hand-over to whichever member the map yields, and the closing of an empty idle room |
| GameActor.GameActor.HandlePlayerReady | pkg/actor/game_actor.go:250-276 | the loop over the members decides all_ready correctly in any iteration order |
| GameActor.GameActor.HandlePlayerAction | pkg/actor/game_actor.go:279-309 | refusal 46001, strangers ignored, the script called once, its error answered with 47001 |
| GameActor.GameActor.HandleGameStart | pkg/actor/game_actor.go:312-330 | a second start has no effect |
| GameActor.GameActor.HandleShutdown | pkg/actor/game_actor.go:367-384 | the end hook only if playing, then the timers are gone and the engine is dead |
| GameActor.GameActor.HandleMessage | pkg/actor/game_actor.go:107-130 | every message type reaches its handler, and the call fails exactly for unknown types and bad join payloads |
| GameActor.GameActor.TimerFired | examples/games/blackjack/server/main.ts:359-374 | the scheduled draw runs exactly if it is scheduled and the engine lives |
| Inbox.InboxIsFifo | pkg/actor/actor.go:57-135 | under every interleaving accepted = handled ++ in flight ++ inbox, the inbox stays within capacity, one handler runs at a time even across restarts, finished = processed + panics and errors = failures + panics |
| Letters.MessagesArrive | pkg/actor/actor.go:57-135 | under every interleaving the accepted messages, hence those handled, in hand and waiting, are in order the messages of the Sends that found the actor running and then room (256 unless configured), each once and unchanged |
| Letters.OutcomesCounted | pkg/actor/actor.go:86-107 | in every run processed counts the handlers that returned and errors those that failed or panicked |
| Letters.RunsUntilCancelled | pkg/actor/actor.go:57-83 | without a cancellation the actor runs exactly if it was started, by one Start under way or one loop, and no loop drains or exits |
| Inbox.DrainHandlesAll | pkg/actor/actor.go:110-123 | when a drain finds the inbox empty, everything accepted so far has been handled |
| Inbox.DrainComplete | pkg/actor/actor.go:66-135 | while stopped, whatever is left was sent after the drain's last look by a Send that read running as true before it was cleared |
| Inbox.LeftoverIsReachable | pkg/actor/actor.go:66-135 | such a leftover does occur: a run ends stopped, with no goroutine left and an accepted message in the inbox |
| Inbox.StopIsFinal | pkg/actor/actor.go:138-152 | once the wait is over and no Start is under way, no handler runs and every new Send is refused until another Start |
| Inbox.StopIsFinalExactly | pkg/actor/actor.go:57-152 | after the wait, no handler can run in any continuation without a Start if and only if no Start is between its swap and wg.Add |
| Inbox.RaceIsReachable | pkg/actor/actor.go:57-63 | that race does occur in a run |
| BaseActor.BaseActor.Start | pkg/actor/actor.go:57-63 | an undisturbed Start is the swap step and, if it won, the launch step |
| BaseActor.BaseActor.Send | pkg/actor/actor.go:125-135 | an undisturbed Send succeeds exactly if the actor runs and the inbox has room, and then its message is the last of the inbox |
| BaseActor.BaseActor.ProcessMessage | pkg/actor/actor.go:86-107 | success, failure and panic are counted as one finishing step counts them |
| BaseActor.BaseActor.Drain | pkg/actor/actor.go:110-123 | the drain loop handles exactly the waiting messages in order and leaves the inbox empty |
| BaseActor.BaseActor.Exit | pkg/actor/actor.go:66-69 | running is cleared before the wait group is told |
| Registry.CountIsExact | pkg/actor/system.go:37-94 | under every interleaving the counter is the number of stored actors less registrations not yet counted plus deletions not yet counted, so exact at quiescence |
| Registry.OneRegistrationPerRemoval | pkg/actor/system.go:37-71 | in every run an id has been registered once more than removed if stored, else equally often |
| Registry.AtMostOneRegister | pkg/actor/system.go:37-42 | while nothing removes an id at most one Register of it succeeds |
| Registry.FoundIsStartedSoon | pkg/actor/system.go:37-51 | in every run an actor that can be found has been started, or its Register call is still on its way to starting it |
| Registry.ActorsFollowHistory | pkg/actor/system.go:37-80 | in every run an id is bound to the actor of its last successful Register, unless an Unregister came later |
| Registry.EverybodyIsTold | pkg/actor/system.go:37-71 | in every run exactly the actors ever stored were started or have a call on its way to starting them, and exactly those ever removed were told to stop or are about to be |
| Registry.CallsEnd | pkg/actor/system.go:37-71 | every call under way ends after its own two steps |
| Registry.CountCanBeNegative | pkg/actor/system.go:37-59 | between the steps the counter can fall below zero |
| ActorSystem.ActorSystem.Register | pkg/actor/system.go:37-51 | ErrActorExists exactly for a taken id; otherwise stored, counted and started, as the three steps |
| ActorSystem.ActorSystem.Unregister | pkg/actor/system.go:54-71 | ErrActorNotFound exactly for a missing id; otherwise removed, discounted and told to stop, as the three steps |
| ActorSystem.ActorSystem.Get | pkg/actor/system.go:74-80 | the lookup finds exactly the stored actors |
| ActorSystem.ActorSystem.Count | pkg/actor/system.go:92-94 | the counter as it is at that moment |
| Gateway.IndicesFollowHistory | pkg/websocket/gateway.go:107-148 | in every run a player's entry, and each room entry, is decided by the last Register or effective Unregister for it; the counter counts the registered connections |
| Gateway.NoStaleEntry | pkg/websocket/gateway.go:107-148 | no index entry ever points at a closed or unregistered connection, or at another player's or room's, and no empty room is kept |
| Gateway.IndicesAreInverse | pkg/websocket/gateway.go:107-148 | if no player ever has two connections, a connection is registered exactly if the player and room entries lead back to it |
| Gateway.InverseExactlyOneAtATime | pkg/websocket/gateway.go:107-148 | the indices invert the registry throughout a run if and only if nobody ever has two connections in it |
| Gateway.SecondConnectionIsLost | pkg/websocket/gateway.go:125-148 | otherwise closing the first connection makes a live second one unreachable |
| Gateway.OfferedIsAddressed | pkg/websocket/gateway.go:151-210 | in every run a connection has been offered exactly the payloads addressed to it at their moment, by room, by player or by the welcome, each once and in order, where the last registration events say whom an address means |
| Gateway.DeliveryInOrder | pkg/websocket/gateway.go:318-331 | in every run each queue is within its bound, and what left or waits is an in-order subsequence of the payloads addressed to the connection, short by the drops and exact without them |
| Delivery.QueuesFollowHistory | pkg/websocket/gateway.go:151-331 | in every run each queue, what was written from it and how much was lost are a function of registrations, sends and writes alone: at the end of the queue if registered with room (256 unless configured), lost otherwise, written from the front |
| Delivery.LandsExactly | pkg/websocket/gateway.go:318-331 | after any run an addressed payload lands at the end of the queue if and only if the connection is registered and its queue is not full; otherwise it counts as dropped |
| Delivery.AllDeliveredExactly | pkg/websocket/gateway.go:151-331 | in every run a connection gets all that was addressed to it, in order, if and only if it was registered, with room, whenever something was |
| Delivery.MessagesCounted | pkg/websocket/gateway.go:151-210 | in every run the message counter is the number of sends that found a player or a room |
| Gateway.BroadcastReachesRoom | pkg/websocket/gateway.go:151-170 | a broadcast is offered once to every connection with an entry in the room and changes no other |
| Gateway.SendExceptIsBroadcastMinusOne | pkg/websocket/gateway.go:190-210 | in every run SendExcept does to each connection what a broadcast does, unless it is the named player's |
| GatewayServer.Conn.SendJSON | pkg/websocket/gateway.go:318-331 | in place: the payload goes to the end of the queue unless the connection is closed or the queue full |
| GatewayServer.Hub.Register | pkg/websocket/gateway.go:107-123 | the four stores together are one registration step |
| GatewayServer.Hub.Unregister | pkg/websocket/gateway.go:125-148 | an unknown id has no effect; a known one is closed and removed from all indices |
| GatewayServer.Hub.AddToRoom | pkg/websocket/gateway.go:286-302 | the room is created if missing, and only that entry changes |
| GatewayServer.Hub.RemoveFromRoom | pkg/websocket/gateway.go:303-315 | only that entry goes, and an emptied room with it |
| GatewayServer.Hub.SendToMembers | pkg/websocket/gateway.go:164-166 | the loop over the map, in any order, offers the payload once to each member but the excepted one |
| GatewayServer.Hub.BroadcastToRoom | pkg/websocket/gateway.go:151-170 | the in-place broadcast is the specified step |
| GatewayServer.Hub.SendExcept | pkg/websocket/gateway.go:190-210 | the in-place SendExcept is the specified step |
| GatewayServer.Hub.SendTo | pkg/websocket/gateway.go:172-187 | the in-place SendTo is the specified step |
| Reconnect.RetryBudget | sdks/client-sdk/src/Connection.ts:110-122 | in every run the attempts stay within the maximum, and the delays since the last open or disconnect add up to interval * a * (a + 1) / 2 for a attempts |
| Retries.AttemptsAreRetries | sdks/client-sdk/src/Connection.ts:61-122 | in every run the attempts are the retries scheduled since the socket last opened or the user last disconnected, by the events, and the n-th timer waits n intervals |
| Retries.ExactlyTheBudget | sdks/client-sdk/src/Connection.ts:61-122 | from a connected client on, when only losses and timers follow, the retries wait one, two, three intervals within the budget, and once nothing is pending the whole budget has been scheduled |
| Retries.BudgetCanRunOut | sdks/client-sdk/src/Connection.ts:61-122 | every connected client of a patient user can come to that |
| Reconnect.OneHeartbeat | sdks/client-sdk/src/Connection.ts:124-136 | in every run the heartbeat runs exactly while connected and there is never a second one |
| Reconnect.ListenerSeesChanges | sdks/client-sdk/src/Connection.ts:146-151 | in every run the listener hears no status twice in a row and always knows the current one |
| Retries.SocketInRuns | sdks/client-sdk/src/Connection.ts:46-122 | in every run the socket is what connects, fired retries, opens, losses and disconnects make of it |
| Retries.ReportsFollowEvents | sdks/client-sdk/src/Connection.ts:46-151 | in every run the listener hears connecting on each try, connected on each open, each loss and whether a retry follows, and disconnected when the user disconnects: nothing else, in that order |
| Reconnect.SequenceHasNoGaps | sdks/client-sdk/src/Connection.ts:86-93 | in every run the sent messages are numbered 1, 2, 3, ... across reconnections |
| Retries.SendsFollowEvents | sdks/client-sdk/src/Connection.ts:86-128 | in every run a message goes out exactly for each send and each heartbeat that finds the socket open |
| Reconnect.OneRetryPending | sdks/client-sdk/src/Connection.ts:46-122 | if the user never connects while a retry is pending, at most one is, and exactly while the status says reconnecting |
| Reconnect.GivesUp | sdks/client-sdk/src/Connection.ts:110-122 | a patient user's client that only meets failures fires at most what is left of the budget, plus a retry already waiting |
| Reconnect.DisconnectIsFinalExactly | sdks/client-sdk/src/Connection.ts:95-144 | after disconnect the client stays disconnected whatever fires if and only if every pending retry was the remembered one |
| Reconnect.DisconnectIsFinal | sdks/client-sdk/src/Connection.ts:95-144 | with a patient user no timer is left after a disconnect, and whatever fires, the client does not change any more |
| Reconnect.ImpatientConnect | sdks/client-sdk/src/Connection.ts:46-122 | two failing connects leave two pending retries, one of which reconnects after a disconnect |
| Connection.Connection.SetStatus | sdks/client-sdk/src/Connection.ts:146-151 | the listener is called exactly on a change |
| Connection.Connection.HandleClose | sdks/client-sdk/src/Connection.ts:110-122 | the socket is dropped, and a retry with the next delay is scheduled exactly if the budget allows |
| Connection.Connection.Connect | sdks/client-sdk/src/Connection.ts:46-84 | no effect on a live socket; otherwise a new socket, or the close path if it cannot be created |
| Connection.Connection.OnOpen | sdks/client-sdk/src/Connection.ts:61-65 | opening resets the attempts and starts the heartbeat |
| Connection.Connection.OnClose | sdks/client-sdk/src/Connection.ts:76-79 | a lost socket stops the heartbeat and takes the close path |
| Connection.Connection.Send | sdks/client-sdk/src/Connection.ts:86-93 | a message takes the next number exactly if the socket is open |
| Connection.Connection.Disconnect | sdks/client-sdk/src/Connection.ts:95-104 | the remembered retry, the heartbeat and the socket go together |
| Connection.Connection.TimerFires | sdks/client-sdk/src/Connection.ts:118-128 | a retry fires once and connects, a heartbeat sends |

## Left out

- The JavaScript engine: dynamic typing, prototypes, hook timeouts and exceptions of its own. Bet amounts are integers (a missing or fractional amount is not modelled), and every hook runs to completion or throws where the model says so.
- GameActor.GameActor.TriggerHook: what a script does after it threw is not modelled. Its state is then left as it was before the call and later hooks do nothing, so later throws are not reported. Exactly rooms of more than 67 seats can get there.
- GameActor.GameActor.HandlePlayerAction: for the same reason 47001 is answered for the script's first throw only.
- How timers call back: the engine's setTimeout discards its callback and only reports an id, so the dealer's `draw` is modelled as the step it schedules; only the timer slots are accounted as written. Delays in milliseconds are left out.
- Script initialisation: onInit is taken to have run before the first join, although the room actor does not trigger it.
- The script's other broadcasts (your_hand, state_update, your_turn, player_bet and the like), message texts and card names: only refusals and the round result are kept.
- Object identity in the script: seats are values in a map, so aliasing of a player record outside `state.players` is not modelled.
- A nil engine in the room actor: the model's room always has one, which Destroy can end.
- Integer widths of the counters (processed, errors, count, connCount, timerID): they are unbounded here.
- BaseActor.BaseActor: the select loop itself, run with a concurrent scheduler, is the transition system `Inbox`; the class covers the bodies that one goroutine runs undisturbed.
- processMessage updates its counters in one step of `Inbox`; a reader between the two additions is not modelled.
- Stop's deadline: the wait is a condition that holds or not, and a timed-out Stop makes no promise.
- ActorSystem.Shutdown, and whether an actor is Startable: every registered actor is started.
- Gateway.IndicesFollowHistory: connection ids are fresh, as ServeWS makes them; registering an id twice is not modelled.
- Data races on the gateway's plain room maps, and the map value handed to CompareAndDelete, which Go cannot compare: Register, Unregister and the sends are atomic, and an emptied room is removed as intended.
- ReadPump and WritePump: only that the writer takes payloads in order; deadlines, pings and the socket itself are left out.
- Room status: "closed is final" is not promised by the code, since a start after closing reports playing again.
- Sockets that linger in a closing state in the client: a close is delivered before the next connect, and status listeners do not call back into the connection.
- Reconnect.DisconnectIsFinal: user code that connects while a retry is pending is excluded; `DisconnectIsFinalExactly` and `ImpatientConnect` say what happens then.
- The URL, the token, message parsing and dispatch in the client (GameClient, EventEmitter).
- The services under `internal/`, persistence, authentication, the HTTP gateway and configuration: thin layers over I/O.
