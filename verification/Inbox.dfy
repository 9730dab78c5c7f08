/**
  BaseActor as a transition system: senders, Start and Stop calls and the processing loops
  interleave in atomic steps.  A Send is two steps (read `running`, then try to enqueue), a
  Start is two (the compare-and-swap, then wg.Add and the goroutine), and leaving the loop is
  three (the drain's last look, running.Store(false), wg.Done).
*/
module Inbox {
  /** A message in the inbox; the two times are history. */
  datatype Letter = Letter(body: int, checkedAt: nat, sentAt: nat)

  /** A Send that has read `running` as true and has not yet tried to enqueue. */
  datatype Pending = Pending(body: int, checkedAt: nat)

  /** Where a processing goroutine is. */
  datatype Loop =
    | Selecting
    | Handling(letter: Letter, draining: bool)
    | Draining
    | Returning      // the drain found the inbox empty
    | Exiting        // running has been cleared, wg.Done is due

  datatype Outcome = Succeeded | Failed | Panicked

  datatype ActorState = ActorState(
    inbox: seq<Letter>,
    inboxCap: nat,
    cancelled: bool,
    running: bool,
    starting: nat,               // Starts between their swap and wg.Add
    loops: map<nat, Loop>,
    nextLoop: nat,
    wg: nat,
    pending: map<nat, Pending>,
    nextSend: nat,
    processed: nat,
    errors: nat,
    // history
    now: nat,
    accepted: seq<Letter>,
    handled: seq<Letter>,
    current: seq<Letter>,        // the message in a handler's hands
    panics: nat,
    failures: nat,
    emptiedAt: nat,              // the last time a drain found the inbox empty
    clearedAt: nat)              // the last time running was cleared

  datatype Step =
    | StartSwap
    | StartLaunch
    | Receive(l: nat)
    | SeeCancel(l: nat)
    | Finish(l: nat, outcome: Outcome)
    | DrainEmpty(l: nat)
    | ClearRunning(l: nat)
    | WaitGroupDone(l: nat)
    | SendCheck(body: int)
    | SendEnqueue(s: nat)
    | Cancel

  const DEFAULT_INBOX_CAP: nat := 256

  /** NewBaseActor. */
  function NewActor(inboxCap: int): ActorState {
    ActorState([], if inboxCap <= 0 then DEFAULT_INBOX_CAP else inboxCap, false, false, 0, map[], 0, 0, map[], 0,
               0, 0, 1, [], [], [], 0, 0, 0, 0)
  }

  predicate At(s: ActorState, l: nat, where: Loop) { l in s.loops && s.loops[l] == where }

  predicate IsHandling(s: ActorState, l: nat) { l in s.loops && s.loops[l].Handling? }

  predicate Enabled(s: ActorState, step: Step) {
    match step
    case StartSwap => true
    case StartLaunch => s.starting > 0
    case Receive(l) => (At(s, l, Selecting) || At(s, l, Draining)) && s.inbox != []
    case SeeCancel(l) => At(s, l, Selecting) && s.cancelled
    case Finish(l, _) => IsHandling(s, l)
    case DrainEmpty(l) => At(s, l, Draining) && s.inbox == []
    case ClearRunning(l) => At(s, l, Returning)
    case WaitGroupDone(l) => At(s, l, Exiting) && s.wg > 0
    case SendCheck(_) => true
    case SendEnqueue(p) => p in s.pending
    case Cancel => true
  }

  /** The effect of a step that can be taken; others leave the state as it is. */
  function Effect(s: ActorState, step: Step): ActorState
    requires Enabled(s, step)
  {
    match step
    case StartSwap => if s.running then s else s.(running := true, starting := s.starting + 1)
    case StartLaunch =>
      s.(starting := s.starting - 1, wg := s.wg + 1,
         loops := s.loops[s.nextLoop := Selecting], nextLoop := s.nextLoop + 1)
    case Receive(l) =>
      s.(inbox := s.inbox[1..], loops := s.loops[l := Handling(s.inbox[0], s.loops[l].Draining?)],
         current := [s.inbox[0]])
    case SeeCancel(l) => s.(loops := s.loops[l := Draining])
    case Finish(l, outcome) =>
      s.(loops := s.loops[l := if s.loops[l].draining then Draining else Selecting],
         handled := s.handled + [s.loops[l].letter],
         current := [],
         processed := s.processed + (if outcome.Panicked? then 0 else 1),
         errors := s.errors + (if outcome.Succeeded? then 0 else 1),
         panics := s.panics + (if outcome.Panicked? then 1 else 0),
         failures := s.failures + (if outcome.Failed? then 1 else 0))
    case DrainEmpty(l) => s.(loops := s.loops[l := Returning], emptiedAt := s.now)
    case ClearRunning(l) => s.(running := false, loops := s.loops[l := Exiting], clearedAt := s.now)
    case WaitGroupDone(l) => s.(wg := s.wg - 1, loops := s.loops - {l})
    case SendCheck(body) =>
      if s.running then s.(pending := s.pending[s.nextSend := Pending(body, s.now)], nextSend := s.nextSend + 1)
      else s.(nextSend := s.nextSend + 1)
    case SendEnqueue(p) =>
      var left := s.(pending := s.pending - {p});
      if |s.inbox| < s.inboxCap
      then var letter := Letter(s.pending[p].body, s.pending[p].checkedAt, s.now);
           left.(inbox := s.inbox + [letter], accepted := s.accepted + [letter])
      else left
    case Cancel => s.(cancelled := true)
  }

  function Next(s: ActorState, step: Step): ActorState {
    if Enabled(s, step) then Effect(s, step).(now := s.now + 1) else s
  }

  function RunFrom(s: ActorState, steps: seq<Step>): ActorState
    decreases |steps|
  {
    if steps == [] then s else Next(RunFrom(s, steps[..|steps| - 1]), steps[|steps| - 1])
  }

  // ----- Invariants -----

  /** A loop that can still handle messages, or has yet to clear `running`. */
  predicate Live(w: Loop) { !w.Exiting? }

  /** `running` is true exactly while one Start is under way or one loop lives, and never more than one. */
  ghost predicate OneLoop(loops: map<nat, Loop>, nextLoop: nat, starting: nat, running: bool) {
    && (forall l :: l in loops ==> l < nextLoop)
    && (forall l, k :: l in loops && k in loops && Live(loops[l]) && Live(loops[k]) ==> l == k)
    && starting <= 1
    && (starting == 1 ==> running && forall l :: l in loops ==> !Live(loops[l]))
    && (running && starting == 0 ==> exists l :: l in loops && Live(loops[l]))
    && (!running ==> forall l :: l in loops ==> !Live(loops[l]))
  }

  /** What the handler holds is what the one handling loop says it does. */
  ghost predicate OneHandler(loops: map<nat, Loop>, current: seq<Letter>) {
    && |current| <= 1
    && (forall l :: l in loops && loops[l].Handling? ==> current == [loops[l].letter])
    && (current != [] ==> exists l :: l in loops && loops[l].Handling?)
  }

  /** Accepted messages are handled in order, then in flight, then waiting. */
  ghost predicate Fifo(s: ActorState) {
    && s.accepted == s.handled + s.current + s.inbox
    && |s.inbox| <= s.inboxCap
  }

  ghost predicate Counters(s: ActorState) {
    && |s.handled| == s.processed + s.panics
    && s.errors == s.failures + s.panics
    && s.wg == |s.loops|
  }

  ghost predicate IsReturning(loops: map<nat, Loop>) { exists l :: l in loops && loops[l].Returning? }

  ghost predicate SentAfter(inbox: seq<Letter>, time: nat) { forall e :: e in inbox ==> e.sentAt > time }

  ghost predicate CheckedBefore(inbox: seq<Letter>, pending: map<nat, Pending>, time: nat) {
    && (forall e :: e in inbox ==> e.checkedAt < time)
    && (forall p :: p in pending ==> pending[p].checkedAt < time)
  }

  /** After a loop's last look, or while stopped, what waits was sent after that look by an earlier check. */
  ghost predicate Leftovers(s: ActorState) {
    && s.emptiedAt < s.now
    && s.clearedAt < s.now
    && CheckedBefore(s.inbox, s.pending, s.now)
    && (!s.running || IsReturning(s.loops) ==> SentAfter(s.inbox, s.emptiedAt))
    && (!s.running ==> CheckedBefore(s.inbox, s.pending, s.clearedAt))
  }

  ghost predicate ActorOk(s: ActorState) {
    && OneLoop(s.loops, s.nextLoop, s.starting, s.running)
    && OneHandler(s.loops, s.current)
    && Fifo(s)
    && Counters(s)
    && Leftovers(s)
    && (forall p :: p in s.pending ==> p < s.nextSend)
  }

  lemma NewActorOk(inboxCap: int)
    ensures ActorOk(NewActor(inboxCap))
  {
  }

  lemma MapSize<T>(m: map<nat, T>, l: nat, v: T)
    ensures |m[l := v]| == if l in m then |m| else |m| + 1
    ensures l in m ==> |m - {l}| == |m| - 1
  {
    assert m[l := v].Keys == m.Keys + {l};
    assert l in m ==> m.Keys + {l} == m.Keys;
    assert (m - {l}).Keys == m.Keys - {l};
  }

  /** A loop that stays alive moves on. */
  lemma LoopMoves(loops: map<nat, Loop>, nextLoop: nat, starting: nat, running: bool, l: nat, w: Loop)
    requires OneLoop(loops, nextLoop, starting, running) && l in loops && Live(loops[l]) && Live(w)
    ensures OneLoop(loops[l := w], nextLoop, starting, running)
    ensures running && starting == 0
    ensures forall k :: k in loops && Live(loops[k]) ==> k == l
  {
    assert Live(loops[l := w][l]);
  }

  lemma LoopLaunches(loops: map<nat, Loop>, nextLoop: nat, starting: nat, running: bool)
    requires OneLoop(loops, nextLoop, starting, running) && starting > 0
    ensures OneLoop(loops[nextLoop := Selecting], nextLoop + 1, starting - 1, running)
  {
    assert Live(loops[nextLoop := Selecting][nextLoop]);
  }

  lemma LoopClears(loops: map<nat, Loop>, nextLoop: nat, starting: nat, running: bool, l: nat)
    requires OneLoop(loops, nextLoop, starting, running) && l in loops && Live(loops[l])
    ensures OneLoop(loops[l := Exiting], nextLoop, starting, false)
    ensures running && starting == 0
  {
  }

  lemma LoopEnds(loops: map<nat, Loop>, nextLoop: nat, starting: nat, running: bool, l: nat)
    requires OneLoop(loops, nextLoop, starting, running) && l in loops && !Live(loops[l])
    ensures OneLoop(loops - {l}, nextLoop, starting, running)
  {
    if running && starting == 0 {
      var k :| k in loops && Live(loops[k]);
      assert k in loops - {l};
    }
  }

  /** If the one live loop is not handling, nothing is in flight. */
  lemma NothingInHand(loops: map<nat, Loop>, current: seq<Letter>, l: nat)
    requires OneHandler(loops, current)
    requires forall k :: k in loops && Live(loops[k]) ==> k == l
    requires l in loops && !loops[l].Handling?
    ensures current == []
  {
    assert forall k :: k in loops && loops[k].Handling? ==> Live(loops[k]);
  }

  lemma HandlerTakes(loops: map<nat, Loop>, l: nat, letter: Letter, draining: bool)
    requires l in loops && forall k :: k in loops && Live(loops[k]) ==> k == l
    ensures OneHandler(loops[l := Handling(letter, draining)], [letter])
    ensures !IsReturning(loops[l := Handling(letter, draining)])
  {
    assert loops[l := Handling(letter, draining)][l].Handling?;
    assert forall k :: k in loops && (loops[k].Handling? || loops[k].Returning?) ==> Live(loops[k]);
  }

  lemma HandlerGives(loops: map<nat, Loop>, l: nat, w: Loop)
    requires l in loops && forall k :: k in loops && Live(loops[k]) ==> k == l
    requires w == Draining || w == Selecting
    ensures OneHandler(loops[l := w], [])
    ensures !IsReturning(loops[l := w])
  {
    assert forall k :: k in loops && (loops[k].Handling? || loops[k].Returning?) ==> Live(loops[k]);
  }

  lemma LaterBound(inbox: seq<Letter>, pending: map<nat, Pending>, time: nat, rest: seq<Letter>)
    requires CheckedBefore(inbox, pending, time)
    requires forall e :: e in rest ==> e in inbox
    ensures CheckedBefore(rest, pending, time + 1)
  {
  }

  lemma ReceiveOk(s: ActorState, l: nat)
    requires ActorOk(s) && Enabled(s, Receive(l))
    ensures ActorOk(Next(s, Receive(l)))
  {
    hide OneLoop, OneHandler, CheckedBefore, SentAfter, IsReturning;
    var letter := s.inbox[0];
    var w := Handling(letter, s.loops[l].Draining?);
    var t := Next(s, Receive(l));
    assert t == s.(inbox := s.inbox[1..], loops := s.loops[l := w], current := [letter], now := s.now + 1);
    hide Next, Enabled, Effect, At;
    LoopMoves(s.loops, s.nextLoop, s.starting, s.running, l, w);
    MapSize(s.loops, l, w);
    NothingInHand(s.loops, s.current, l);
    HandlerTakes(s.loops, l, letter, w.draining);
    assert s.inbox == [letter] + s.inbox[1..];
    assert forall e :: e in s.inbox[1..] ==> e in s.inbox;
    LaterBound(s.inbox, s.pending, s.now, s.inbox[1..]);
  }

  /** Finishing moves the message in hand to the handled ones and counts its outcome. */
  lemma FinishShape(s: ActorState, l: nat, outcome: Outcome)
    requires Enabled(s, Finish(l, outcome)) && OneHandler(s.loops, s.current)
    ensures var t := Next(s, Finish(l, outcome));
      && t == s.(loops := s.loops[l := if s.loops[l].draining then Draining else Selecting],
                 handled := s.handled + s.current, current := [], now := s.now + 1,
                 processed := t.processed, errors := t.errors, panics := t.panics, failures := t.failures)
      && t.processed + t.panics == s.processed + s.panics + 1
      && t.errors - t.failures - t.panics == s.errors - s.failures - s.panics
      && |s.current| == 1 && IsHandling(s, l)
  {
    assert s.current == [s.loops[l].letter];
  }

  lemma FinishOk(s: ActorState, l: nat, outcome: Outcome)
    requires ActorOk(s) && Enabled(s, Finish(l, outcome))
    ensures ActorOk(Next(s, Finish(l, outcome)))
  {
    hide OneLoop, OneHandler, CheckedBefore, SentAfter, IsReturning, Next, Enabled, Effect;
    FinishShape(s, l, outcome);
    var w := if s.loops[l].draining then Draining else Selecting;
    LoopMoves(s.loops, s.nextLoop, s.starting, s.running, l, w);
    MapSize(s.loops, l, w);
    HandlerGives(s.loops, l, w);
    LaterBound(s.inbox, s.pending, s.now, s.inbox);
  }

  /** A loop moves without touching the inbox: it sees the cancellation, or finds the inbox empty. */
  lemma QuietMoveOk(s: ActorState, l: nat, w: Loop, t: ActorState)
    requires ActorOk(s) && l in s.loops && Live(s.loops[l]) && !s.loops[l].Handling?
    requires w == Draining || (w == Returning && s.inbox == [])
    requires t == s.(loops := s.loops[l := w], now := s.now + 1,
                     emptiedAt := if w == Returning then s.now else s.emptiedAt)
    ensures ActorOk(t)
  {
    LoopMoves(s.loops, s.nextLoop, s.starting, s.running, l, w);
    MapSize(s.loops, l, w);
    NothingInHand(s.loops, s.current, l);
    assert IsReturning(t.loops) ==> w == Returning;
  }

  lemma ClearOk(s: ActorState, l: nat)
    requires ActorOk(s) && Enabled(s, ClearRunning(l))
    ensures ActorOk(Next(s, ClearRunning(l)))
  {
    LoopClears(s.loops, s.nextLoop, s.starting, s.running, l);
    MapSize(s.loops, l, Exiting);
    assert IsReturning(s.loops);
    KeepsHandler(s.loops, s.loops[l := Exiting], s.current, l);
  }

  /** Changing a loop that holds no message keeps who does. */
  lemma KeepsHandler(a: map<nat, Loop>, b: map<nat, Loop>, current: seq<Letter>, l: nat)
    requires OneHandler(a, current)
    requires forall k :: k != l ==> (k in a <==> k in b) && (k in a ==> a[k] == b[k])
    requires (l in a ==> !a[l].Handling?) && (l in b ==> !b[l].Handling?)
    ensures OneHandler(b, current)
  {
    if current != [] {
      var k :| k in a && a[k].Handling?;
      assert k in b && b[k].Handling?;
    }
  }

  lemma EndOk(s: ActorState, l: nat)
    requires ActorOk(s) && Enabled(s, WaitGroupDone(l))
    ensures ActorOk(Next(s, WaitGroupDone(l)))
  {
    LoopEnds(s.loops, s.nextLoop, s.starting, s.running, l);
    MapSize(s.loops, l, Exiting);
    KeepsHandler(s.loops, s.loops - {l}, s.current, l);
    assert IsReturning(s.loops - {l}) ==> IsReturning(s.loops);
  }

  lemma LaunchOk(s: ActorState)
    requires ActorOk(s) && s.starting > 0
    ensures ActorOk(Next(s, StartLaunch))
  {
    LoopLaunches(s.loops, s.nextLoop, s.starting, s.running);
    MapSize(s.loops, s.nextLoop, Selecting);
    KeepsHandler(s.loops, s.loops[s.nextLoop := Selecting], s.current, s.nextLoop);
    assert IsReturning(s.loops[s.nextLoop := Selecting]) ==> IsReturning(s.loops);
  }

  lemma SwapOk(s: ActorState)
    requires ActorOk(s)
    ensures ActorOk(Next(s, StartSwap))
  {
  }

  lemma CheckOk(s: ActorState, body: int)
    requires ActorOk(s)
    ensures ActorOk(Next(s, SendCheck(body)))
  {
  }

  lemma EnqueueOk(s: ActorState, p: nat)
    requires ActorOk(s) && p in s.pending
    ensures ActorOk(Next(s, SendEnqueue(p)))
  {
    hide OneLoop, OneHandler, IsReturning, SentAfter, CheckedBefore;
    var letter := Letter(s.pending[p].body, s.pending[p].checkedAt, s.now);
    LetterSent(s.inbox, s.pending, p, letter, s.now, s.now + 1);
    LetterSent(s.inbox, s.pending, p, letter, s.clearedAt, s.clearedAt);
    if !s.running || IsReturning(s.loops) {
      LetterLate(s.inbox, letter, s.emptiedAt);
    }
  }

  /** Moving a checked message into the inbox, or dropping it, keeps the bound on check times. */
  lemma LetterSent(inbox: seq<Letter>, pending: map<nat, Pending>, p: nat, letter: Letter, time: nat, bound: nat)
    requires p in pending && letter.checkedAt == pending[p].checkedAt && bound >= time
    ensures CheckedBefore(inbox, pending, time) ==> CheckedBefore(inbox + [letter], pending - {p}, bound)
    ensures CheckedBefore(inbox, pending, time) ==> CheckedBefore(inbox, pending - {p}, bound)
  {
    assert forall e :: e in inbox + [letter] ==> e in inbox || e == letter;
  }

  lemma LetterLate(inbox: seq<Letter>, letter: Letter, time: nat)
    requires SentAfter(inbox, time) && letter.sentAt > time
    ensures SentAfter(inbox + [letter], time)
  {
    assert forall e :: e in inbox + [letter] ==> e in inbox || e == letter;
  }

  lemma StepOk(s: ActorState, step: Step)
    requires ActorOk(s)
    ensures ActorOk(Next(s, step))
  {
    hide ActorOk;
    if Enabled(s, step) {
      match step
      case StartSwap => SwapOk(s);
      case StartLaunch => LaunchOk(s);
      case Receive(l) => ReceiveOk(s, l);
      case SeeCancel(l) => QuietMoveOk(s, l, Draining, Next(s, step));
      case Finish(l, outcome) => FinishOk(s, l, outcome);
      case DrainEmpty(l) => QuietMoveOk(s, l, Returning, Next(s, step));
      case ClearRunning(l) => ClearOk(s, l);
      case WaitGroupDone(l) => EndOk(s, l);
      case SendCheck(body) => CheckOk(s, body);
      case SendEnqueue(p) => EnqueueOk(s, p);
      case Cancel => CancelOk(s);
    }
  }

  lemma CancelOk(s: ActorState)
    requires ActorOk(s)
    ensures ActorOk(Next(s, Cancel))
  {
  }

  lemma {:induction false} RunOk(s: ActorState, steps: seq<Step>)
    requires ActorOk(s)
    ensures ActorOk(RunFrom(s, steps))
    decreases |steps|
  {
    if steps != [] {
      RunOk(s, steps[..|steps| - 1]);
      StepOk(RunFrom(s, steps[..|steps| - 1]), steps[|steps| - 1]);
    }
  }

  // ----- Theorems -----

  /**
    Under every interleaving of senders, the loops, Start and Stop: the accepted messages are,
    in order, those handled, the one in flight and those waiting; the inbox stays within its
    capacity; at most one handler runs at a time, even across a restart; and the counters are exact.
  */
  lemma InboxIsFifo(inboxCap: int, steps: seq<Step>)
    ensures var s := RunFrom(NewActor(inboxCap), steps);
      && s.accepted == s.handled + s.current + s.inbox
      && |s.current| <= 1
      && |s.inbox| <= s.inboxCap
      && (forall l, k :: IsHandling(s, l) && IsHandling(s, k) ==> l == k)
      && (forall l :: IsHandling(s, l) ==> s.current == [s.loops[l].letter])
      && |s.handled| == s.processed + s.panics
      && s.errors == s.failures + s.panics
  {
    hide Next, RunFrom;
    NewActorOk(inboxCap);
    RunOk(NewActor(inboxCap), steps);
    var s := RunFrom(NewActor(inboxCap), steps);
    assert forall l :: IsHandling(s, l) ==> Live(s.loops[l]);
  }

  /** When a drain finds the inbox empty, everything accepted so far has been handled. */
  lemma DrainHandlesAll(inboxCap: int, steps: seq<Step>, l: nat)
    requires var s := RunFrom(NewActor(inboxCap), steps); Enabled(s, DrainEmpty(l))
    ensures var s := RunFrom(NewActor(inboxCap), steps); s.accepted == s.handled
  {
    hide Next, RunFrom;
    NewActorOk(inboxCap);
    RunOk(NewActor(inboxCap), steps);
    var s := RunFrom(NewActor(inboxCap), steps);
    assert Live(s.loops[l]);
    NothingInHand(s.loops, s.current, l);
  }

  /**
    Drain completeness: while the actor is stopped, what is left unhandled is what waits in the
    inbox, and each such message was enqueued after the drain's last look by a Send that had
    read `running` as true before it was cleared.
  */
  lemma DrainComplete(inboxCap: int, steps: seq<Step>)
    requires !RunFrom(NewActor(inboxCap), steps).running
    ensures var s := RunFrom(NewActor(inboxCap), steps);
      && s.accepted == s.handled + s.inbox
      && (forall e :: e in s.inbox ==> e.checkedAt < s.clearedAt && e.sentAt > s.emptiedAt)
  {
    hide Next, RunFrom;
    NewActorOk(inboxCap);
    RunOk(NewActor(inboxCap), steps);
    var s := RunFrom(NewActor(inboxCap), steps);
    assert forall l :: l in s.loops && s.loops[l].Handling? ==> Live(s.loops[l]);
  }

  predicate Restarts(steps: seq<Step>) {
    exists i :: 0 <= i < |steps| && steps[i].StartSwap?
  }

  /** What Stop's wait observes: no goroutine is counted. */
  predicate WaitOver(s: ActorState) { s.wg == 0 }

  /** No handler runs, and a new Send is refused. */
  ghost predicate Quiet(s: ActorState) {
    && !s.running
    && s.loops == map[]
    && forall body :: Next(s, SendCheck(body)).pending == s.pending
  }

  lemma QuietStep(s: ActorState, step: Step)
    requires ActorOk(s) && Quiet(s) && s.starting == 0 && !step.StartSwap?
    ensures Quiet(Next(s, step)) && Next(s, step).starting == 0
    ensures Next(s, step).handled == s.handled
  {
    hide ActorOk;
  }

  lemma {:induction false} QuietRun(s: ActorState, steps: seq<Step>)
    requires ActorOk(s) && Quiet(s) && s.starting == 0 && !Restarts(steps)
    ensures Quiet(RunFrom(s, steps)) && RunFrom(s, steps).starting == 0
    ensures RunFrom(s, steps).handled == s.handled
    decreases |steps|
  {
    hide Next, ActorOk, Quiet;
    if steps != [] {
      var front := steps[..|steps| - 1];
      assert forall i :: 0 <= i < |front| ==> front[i] == steps[i];
      QuietRun(s, front);
      RunOk(s, front);
      QuietStep(RunFrom(s, front), steps[|steps| - 1]);
    }
  }

  /**
    Once Stop's wait is over, and if no Start is between its swap and wg.Add, no handler runs and
    every new Send is refused, in every continuation without another Start.
  */
  lemma StopIsFinal(inboxCap: int, before: seq<Step>, after: seq<Step>)
    requires var s := RunFrom(NewActor(inboxCap), before); WaitOver(s) && s.starting == 0
    requires !Restarts(after)
    ensures var s := RunFrom(NewActor(inboxCap), before);
      Quiet(s) && Quiet(RunFrom(s, after)) && RunFrom(s, after).handled == s.handled
  {
    hide Next, RunFrom, Quiet;
    NewActorOk(inboxCap);
    RunOk(NewActor(inboxCap), before);
    var s := RunFrom(NewActor(inboxCap), before);
    NoLoops(s);
    QuietRun(s, after);
  }

  lemma NoLoops(s: ActorState)
    requires ActorOk(s) && WaitOver(s) && s.starting == 0
    ensures Quiet(s)
  {
    assert s.loops.Keys == {} by { assert |s.loops.Keys| == |s.loops|; }
    assert s.loops == map[];
  }

  /** That no Start is under way is exactly what it takes: otherwise a handler can still run. */
  lemma StopIsFinalExactly(inboxCap: int, before: seq<Step>)
    requires WaitOver(RunFrom(NewActor(inboxCap), before))
    ensures var s := RunFrom(NewActor(inboxCap), before);
      s.starting == 0 <==> forall after, l :: !Restarts(after) ==> !IsHandling(RunFrom(s, after), l)
  {
    hide Next, RunFrom, Quiet;
    var s := RunFrom(NewActor(inboxCap), before);
    NewActorOk(inboxCap);
    RunOk(NewActor(inboxCap), before);
    if s.starting == 0 {
      forall after, l | !Restarts(after) ensures !IsHandling(RunFrom(s, after), l) {
        StopIsFinal(inboxCap, before, after);
        QuietHandlesNothing(RunFrom(s, after), l);
      }
    } else {
      CapPositive(inboxCap, before);
      RaceRuns(s);
    }
  }

  lemma QuietHandlesNothing(s: ActorState, l: nat)
    requires Quiet(s)
    ensures !IsHandling(s, l)
  {
  }

  lemma {:induction false} CapPositive(inboxCap: int, steps: seq<Step>)
    ensures RunFrom(NewActor(inboxCap), steps).inboxCap > 0
    decreases |steps|
  {
    hide Next;
    if steps != [] {
      CapPositive(inboxCap, steps[..|steps| - 1]);
      CapFixed(RunFrom(NewActor(inboxCap), steps[..|steps| - 1]), steps[|steps| - 1]);
    }
  }

  lemma CapFixed(s: ActorState, step: Step)
    ensures Next(s, step).inboxCap == s.inboxCap
  {
  }

  lemma RunFour(s: ActorState, a: Step, b: Step, c: Step, d: Step)
    ensures RunFrom(s, [a, b, c, d]) == Next(Next(Next(Next(s, a), b), c), d)
  {
    hide Next;
    assert [a, b, c, d][..3] == [a, b, c];
    assert [a, b, c][..2] == [a, b];
    assert [a, b][..1] == [a];
    assert [a][..0] == [];
    assert RunFrom(s, [a]) == Next(RunFrom(s, []), a);
    assert RunFrom(s, [a, b]) == Next(RunFrom(s, [a]), b);
    assert RunFrom(s, [a, b, c]) == Next(RunFrom(s, [a, b]), c);
  }

  lemma LaunchThenCheck(s: ActorState)
    requires s.starting > 0 && s.running && s.inbox == []
    ensures var t := Next(Next(s, StartLaunch), SendCheck(0));
      && At(t, s.nextLoop, Selecting) && s.nextSend in t.pending
      && t.inbox == [] && t.inboxCap == s.inboxCap
  {
  }

  lemma EnqueueThenReceive(s: ActorState, l: nat, p: nat)
    requires At(s, l, Selecting) && p in s.pending && s.inbox == [] && s.inboxCap > 0
    ensures IsHandling(Next(Next(s, SendEnqueue(p)), Receive(l)), l)
  {
    assert Next(s, SendEnqueue(p)).inbox != [];
    assert At(Next(s, SendEnqueue(p)), l, Selecting);
  }

  lemma LaunchThenReceive(s: ActorState)
    requires s.starting > 0 && s.inbox != []
    ensures IsHandling(Next(Next(s, StartLaunch), Receive(s.nextLoop)), s.nextLoop)
  {
    assert At(Next(s, StartLaunch), s.nextLoop, Selecting);
  }

  lemma RunTwo(s: ActorState, a: Step, b: Step)
    ensures RunFrom(s, [a, b]) == Next(Next(s, a), b)
  {
    hide Next;
    assert [a, b][..1] == [a] && [a][..0] == [];
    assert RunFrom(s, [a]) == Next(RunFrom(s, []), a);
  }

  /** A Start under way launches a loop that handles a message: one that waits, or a new one. */
  lemma RaceRuns(s: ActorState)
    requires ActorOk(s) && s.starting > 0 && s.inboxCap > 0
    ensures exists after, l :: !Restarts(after) && IsHandling(RunFrom(s, after), l)
  {
    hide ActorOk, Next, RunFrom, At, IsHandling;
    var after;
    if s.inbox == [] {
      Started(s);
      LaunchThenCheck(s);
      EnqueueThenReceive(Next(Next(s, StartLaunch), SendCheck(0)), s.nextLoop, s.nextSend);
      after := [StartLaunch, SendCheck(0), SendEnqueue(s.nextSend), Receive(s.nextLoop)];
      RunFour(s, after[0], after[1], after[2], after[3]);
    } else {
      LaunchThenReceive(s);
      after := [StartLaunch, Receive(s.nextLoop)];
      RunTwo(s, after[0], after[1]);
    }
    assert IsHandling(RunFrom(s, after), s.nextLoop);
    assert !Restarts(after);
  }

  lemma Started(s: ActorState)
    requires ActorOk(s) && s.starting > 0
    ensures s.running
  {
  }

  /** Such a state is reached: Stop cancels, and a Start has just swapped `running`. */
  lemma RaceIsReachable()
    ensures exists before :: var s := RunFrom(NewActor(4), before);
      WaitOver(s) && s.starting > 0 && s.cancelled && s.inbox == []
  {
    var s := NewActor(4);
    assert [Cancel, StartSwap][..1] == [Cancel] && [Cancel][..0] == [];
    assert RunFrom(s, [Cancel]) == Next(RunFrom(s, []), Cancel);
    assert RunFrom(s, [Cancel, StartSwap]) == Next(RunFrom(s, [Cancel]), StartSwap);
  }

  lemma Extended(s: ActorState, steps: seq<Step>, step: Step) returns (more: seq<Step>)
    ensures RunFrom(s, more) == Next(RunFrom(s, steps), step)
  {
    hide Next;
    more := steps + [step];
    assert more[..|steps|] == steps;
  }

  /** A started actor with a Send between its check and its enqueue. */
  lemma StartedAndChecked(s: ActorState)
    requires s == NewActor(4)
    ensures var t := Next(Next(Next(s, StartSwap), StartLaunch), SendCheck(7));
      At(t, 0, Selecting) && t.loops.Keys == {0} && 0 in t.pending && t.inbox == [] && t.inboxCap == 4 && t.wg == 1
  {
    var r := Next(Next(s, StartSwap), StartLaunch);
    assert At(r, 0, Selecting) && r.loops.Keys == {0} && r.running && r.nextSend == 0;
  }

  /** Stop cancels, and the loop looks at the empty inbox for the last time. */
  lemma StoppedAndDrained(t: ActorState)
    requires At(t, 0, Selecting) && 0 in t.pending && t.inbox == [] && t.inboxCap == 4 && t.wg == 1
    requires t.loops.Keys == {0}
    ensures var u := Next(Next(Next(t, Cancel), SeeCancel(0)), DrainEmpty(0));
      At(u, 0, Returning) && u.loops.Keys == {0} && 0 in u.pending && u.inbox == [] && u.inboxCap == 4 && u.wg == 1
  {
    var r := Next(Next(t, Cancel), SeeCancel(0));
    assert At(r, 0, Draining) && r.loops.Keys == {0} && 0 in r.pending && r.inbox == [];
  }

  /** The enqueue comes after the drain's last look and before `running` is cleared. */
  lemma LateEnqueue(u: ActorState)
    requires At(u, 0, Returning) && 0 in u.pending && u.inbox == [] && u.inboxCap == 4 && u.wg == 1
    requires u.loops.Keys == {0}
    ensures var v := Next(Next(Next(u, SendEnqueue(0)), ClearRunning(0)), WaitGroupDone(0));
      !v.running && WaitOver(v) && v.loops == map[] && |v.inbox| == 1
  {
    var v := Next(Next(u, SendEnqueue(0)), ClearRunning(0));
    assert At(v, 0, Exiting) && v.wg == 1 && v.loops.Keys == {0} && |v.inbox| == 1 && !v.running;
  }

  /** So a stopped actor can be left with an accepted message that nobody handles. */
  lemma LeftoverIsReachable()
    ensures exists steps :: var s := RunFrom(NewActor(4), steps);
      !s.running && WaitOver(s) && s.loops == map[] && s.inbox != []
  {
    var s := NewActor(4);
    StartedAndChecked(s);
    StoppedAndDrained(Next(Next(Next(s, StartSwap), StartLaunch), SendCheck(7)));
    LateEnqueue(Next(Next(Next(Next(Next(Next(s, StartSwap), StartLaunch), SendCheck(7)), Cancel), SeeCancel(0)),
                     DrainEmpty(0)));
    assert RunFrom(s, []) == s;
    hide Next, RunFrom, At, WaitOver;
    var steps := Extended(s, [], StartSwap);
    steps := Extended(s, steps, StartLaunch);
    steps := Extended(s, steps, SendCheck(7));
    steps := Extended(s, steps, Cancel);
    steps := Extended(s, steps, SeeCancel(0));
    steps := Extended(s, steps, DrainEmpty(0));
    steps := Extended(s, steps, SendEnqueue(0));
    steps := Extended(s, steps, ClearRunning(0));
    steps := Extended(s, steps, WaitGroupDone(0));
  }
}
