/**
  What the actor's inbox holds and counts, told from the steps of a run: which message each
  accepted letter carries, how the handled ones ended, and how long the actor keeps going.
*/
module Letters {
  import opened Inbox

  /** How many messages may wait: what was configured, or 256. */
  function Room(inboxCap: int): nat { if inboxCap <= 0 then 256 else inboxCap }

  /** Sends are numbered by their checks. */
  function Checks(steps: seq<Step>): nat {
    if steps == [] then 0
    else Checks(steps[..|steps| - 1]) + if steps[|steps| - 1].SendCheck? then 1 else 0
  }

  /** The message of the `p`-th Send. */
  function MessageOf(steps: seq<Step>, p: nat): (body: int)
    requires p < Checks(steps)
  {
    var front, last := steps[..|steps| - 1], steps[|steps| - 1];
    if last.SendCheck? && Checks(front) == p then last.body else MessageOf(front, p)
  }

  /** The `p`-th Send found the actor running and has not yet tried to enqueue. */
  predicate Undecided(inboxCap: int, steps: seq<Step>, p: nat) {
    steps != [] &&
    var front, last := steps[..|steps| - 1], steps[|steps| - 1];
    if last.SendCheck? && Checks(front) == p then RunFrom(NewActor(inboxCap), front).running
    else last != SendEnqueue(p) && Undecided(inboxCap, front, p)
  }

  lemma {:induction false} UndecidedChecked(inboxCap: int, steps: seq<Step>, p: nat)
    requires Undecided(inboxCap, steps, p)
    ensures p < Checks(steps)
    decreases |steps|
  {
    hide RunFrom;
    var front, last := steps[..|steps| - 1], steps[|steps| - 1];
    if !(last.SendCheck? && Checks(front) == p) {
      UndecidedChecked(inboxCap, front, p);
    }
  }

  /** The messages of the Sends that found room, in the order in which they enqueued. */
  function TakenIn(inboxCap: int, steps: seq<Step>): seq<int>
    decreases |steps|
  {
    if steps == [] then []
    else
      var front, last := steps[..|steps| - 1], steps[|steps| - 1];
      TakenIn(inboxCap, front) +
      if last.SendEnqueue? && Undecided(inboxCap, front, last.s)
         && |RunFrom(NewActor(inboxCap), front).inbox| < Room(inboxCap)
      then UndecidedChecked(inboxCap, front, last.s); [MessageOf(front, last.s)]
      else []
  }

  function Bodies(letters: seq<Letter>): seq<int> {
    if letters == [] then [] else Bodies(letters[..|letters| - 1]) + [letters[|letters| - 1].body]
  }

  lemma BodiesMore(letters: seq<Letter>, e: Letter)
    ensures Bodies(letters + [e]) == Bodies(letters) + [e.body]
  {
    assert (letters + [e])[..|letters|] == letters;
  }

  lemma {:induction false} BodiesConcat(a: seq<Letter>, b: seq<Letter>)
    ensures Bodies(a + b) == Bodies(a) + Bodies(b)
    decreases |b|
  {
    if b == [] {
      assert a + b == a;
    } else {
      assert (a + b)[..|a + b| - 1] == a + b[..|b| - 1];
      BodiesConcat(a, b[..|b| - 1]);
    }
  }

  /** Each pending Send carries its own message. */
  ghost predicate SendsOk(inboxCap: int, steps: seq<Step>, s: ActorState) {
    && s.nextSend == Checks(steps)
    && s.inboxCap == Room(inboxCap)
    && (forall p :: p in s.pending <==> Undecided(inboxCap, steps, p))
    && (forall p :: p in s.pending ==> p < Checks(steps) && s.pending[p].body == MessageOf(steps, p))
  }

  lemma QuietSends(s: ActorState, step: Step)
    requires !step.SendCheck? && !step.SendEnqueue?
    ensures var t := Next(s, step);
      t.nextSend == s.nextSend && t.inboxCap == s.inboxCap && t.pending == s.pending && t.accepted == s.accepted
  {
  }

  lemma SameMessages(front: seq<Step>, step: Step)
    ensures Checks(front + [step]) == Checks(front) + if step.SendCheck? then 1 else 0
    ensures forall p: nat :: p < Checks(front) ==> MessageOf(front + [step], p) == MessageOf(front, p)
    ensures step.SendCheck? ==> MessageOf(front + [step], Checks(front)) == step.body
  {
    assert (front + [step])[..|front|] == front;
  }

  lemma StillUndecided(inboxCap: int, front: seq<Step>, step: Step, p: nat)
    ensures Undecided(inboxCap, front + [step], p)
      <==> if step.SendCheck? && Checks(front) == p then RunFrom(NewActor(inboxCap), front).running
           else step != SendEnqueue(p) && Undecided(inboxCap, front, p)
  {
    hide RunFrom;
    assert (front + [step])[..|front|] == front;
  }

  lemma StepSends(inboxCap: int, front: seq<Step>, s: ActorState, step: Step)
    requires SendsOk(inboxCap, front, s) && s == RunFrom(NewActor(inboxCap), front)
    ensures SendsOk(inboxCap, front + [step], Next(s, step))
  {
    hide RunFrom, MessageOf, Checks, Undecided;
    SameMessages(front, step);
    forall p: nat { StillUndecided(inboxCap, front, step, p); }
    if !step.SendCheck? && !step.SendEnqueue? {
      QuietSends(s, step);
      hide Next;
    }
  }

  lemma {:induction false} SendsInRuns(inboxCap: int, steps: seq<Step>)
    ensures SendsOk(inboxCap, steps, RunFrom(NewActor(inboxCap), steps))
    decreases |steps|
  {
    if steps != [] {
      var front, last := steps[..|steps| - 1], steps[|steps| - 1];
      SendsInRuns(inboxCap, front);
      var s := RunFrom(NewActor(inboxCap), front);
      assert front + [last] == steps;
      hide Next, SendsOk;
      StepSends(inboxCap, front, s, last);
    }
  }

  /**
    Under every interleaving the accepted letters carry, in order, the messages of the Sends that
    found the actor running and then room in the inbox, each once and none changed; so the messages
    handled, in hand and waiting are those.
  */
  lemma {:induction false} MessagesArrive(inboxCap: int, steps: seq<Step>)
    ensures var s := RunFrom(NewActor(inboxCap), steps);
      && Bodies(s.accepted) == TakenIn(inboxCap, steps)
      && Bodies(s.handled) + Bodies(s.current) + Bodies(s.inbox) == TakenIn(inboxCap, steps)
      && |s.inbox| <= Room(inboxCap)
    decreases |steps|
  {
    if steps != [] {
      var front, last := steps[..|steps| - 1], steps[|steps| - 1];
      MessagesArrive(inboxCap, front);
      SendsInRuns(inboxCap, front);
      StepArrives(inboxCap, front, last);
    }
    hide Next, RunFrom, TakenIn;
    SendsInRuns(inboxCap, steps);
    InboxIsFifo(inboxCap, steps);
    var s := RunFrom(NewActor(inboxCap), steps);
    BodiesConcat(s.handled, s.current);
    BodiesConcat(s.handled + s.current, s.inbox);
  }

  lemma StepArrives(inboxCap: int, front: seq<Step>, step: Step)
    requires var s := RunFrom(NewActor(inboxCap), front);
      SendsOk(inboxCap, front, s) && Bodies(s.accepted) == TakenIn(inboxCap, front)
    ensures Bodies(Next(RunFrom(NewActor(inboxCap), front), step).accepted) == TakenIn(inboxCap, front + [step])
  {
    assert (front + [step])[..|front|] == front;
    hide RunFrom;
    var s := RunFrom(NewActor(inboxCap), front);
    if step.SendEnqueue? {
      var e := Letter(if step.s in s.pending then s.pending[step.s].body else 0,
                      if step.s in s.pending then s.pending[step.s].checkedAt else 0, s.now);
      BodiesMore(s.accepted, e);
    } else if !step.SendCheck? {
      QuietSends(s, step);
    }
  }

  // ----- What is counted -----

  /** The handlers of a run that ended so. */
  function Ended(inboxCap: int, steps: seq<Step>, outcome: Outcome): nat
    decreases |steps|
  {
    if steps == [] then 0
    else
      var front, last := steps[..|steps| - 1], steps[|steps| - 1];
      Ended(inboxCap, front, outcome) +
      if last.Finish? && last.outcome == outcome && IsHandling(RunFrom(NewActor(inboxCap), front), last.l) then 1 else 0
  }

  lemma OutcomeCounts(s: ActorState, step: Step)
    ensures var t := Next(s, step); var finished := step.Finish? && IsHandling(s, step.l);
      && t.processed == s.processed + (if finished && !step.outcome.Panicked? then 1 else 0)
      && t.errors == s.errors + (if finished && !step.outcome.Succeeded? then 1 else 0)
  {
  }

  /** In every run processed counts the handlers that returned, and errors those that failed or panicked. */
  lemma {:induction false} OutcomesCounted(inboxCap: int, steps: seq<Step>)
    ensures var s := RunFrom(NewActor(inboxCap), steps);
      && s.processed == Ended(inboxCap, steps, Succeeded) + Ended(inboxCap, steps, Failed)
      && s.errors == Ended(inboxCap, steps, Failed) + Ended(inboxCap, steps, Panicked)
    decreases |steps|
  {
    hide Next;
    if steps != [] {
      OutcomesCounted(inboxCap, steps[..|steps| - 1]);
      OutcomeCounts(RunFrom(NewActor(inboxCap), steps[..|steps| - 1]), steps[|steps| - 1]);
    }
  }

  // ----- How long the actor keeps going -----

  predicate Cancels(steps: seq<Step>) {
    exists i :: 0 <= i < |steps| && steps[i].Cancel?
  }

  /** A loop that is not on its way out. */
  predicate Working(w: Loop) { w.Selecting? || (w.Handling? && !w.draining) }

  ghost predicate GoesOn(s: ActorState, started: bool) {
    && !s.cancelled
    && (s.running <==> started)
    && (forall l :: l in s.loops ==> Working(s.loops[l]))
    && s.starting + |s.loops| == if started then 1 else 0
  }

  lemma LoopGoesOn(s: ActorState, started: bool, t: ActorState, l: nat, w: Loop)
    requires GoesOn(s, started) && l in s.loops && Working(w) && t.loops == s.loops[l := w]
    requires t.cancelled == s.cancelled && t.running == s.running && t.starting == s.starting
    ensures GoesOn(t, started)
  {
    MapSize(s.loops, l, w);
  }

  lemma GoesOnStep(s: ActorState, started: bool, step: Step)
    requires GoesOn(s, started) && !step.Cancel?
    ensures GoesOn(Next(s, step), started || step.StartSwap?)
  {
    if Enabled(s, step) {
      match step
      case StartLaunch => LaunchGoesOn(s, started);
      case Receive(l) => LoopGoesOn(s, started, Next(s, step), l, Handling(s.inbox[0], false));
      case Finish(l, _) => LoopGoesOn(s, started, Next(s, step), l, Selecting);
      case SendCheck(_) => hide Working;
      case SendEnqueue(_) => hide Working;
      case StartSwap => hide Working;
      case _ =>
    }
  }

  lemma LaunchGoesOn(s: ActorState, started: bool)
    requires GoesOn(s, started) && s.starting > 0
    ensures GoesOn(Next(s, StartLaunch), started)
  {
    LaunchIsNew(s, started);
    assert s.loops[s.nextLoop := Selecting] == map[s.nextLoop := Selecting];
  }

  lemma LaunchIsNew(s: ActorState, started: bool)
    requires GoesOn(s, started) && s.starting > 0
    ensures s.loops == map[]
  {
    assert s.loops.Keys == {} by { assert |s.loops.Keys| == |s.loops|; }
  }

  /**
    Nothing but Stop ends the actor: in every run without a cancellation it runs exactly if it was
    started, by one Start under way or one loop, and no loop is on its way out.
  */
  lemma {:induction false} RunsUntilCancelled(inboxCap: int, steps: seq<Step>)
    requires !Cancels(steps)
    ensures var s := RunFrom(NewActor(inboxCap), steps);
      && !s.cancelled
      && (s.running <==> Restarts(steps))
      && (forall l :: l in s.loops ==> Working(s.loops[l]))
      && s.starting + |s.loops| == if s.running then 1 else 0
    decreases |steps|
  {
    hide Next;
    if steps != [] {
      var n := |steps| - 1;
      var front := steps[..n];
      assert forall i :: 0 <= i < n ==> front[i] == steps[i];
      RunsUntilCancelled(inboxCap, front);
      GoesOnStep(RunFrom(NewActor(inboxCap), front), Restarts(front), steps[n]);
      assert Restarts(steps) <==> Restarts(front) || steps[n].StartSwap?;
    }
  }
}
