/**
  BaseActor as an object.  Each method is one goroutine's code running undisturbed; it is proved
  to take exactly the steps of `Inbox` that its body stands for, so the interleavings of those
  steps, and what `Inbox` proves about them, cover every schedule.
*/
module BaseActor {
  import opened Inbox

  /** The drain loop of goroutine `l`: the handler's outcomes, one message each. */
  function DrainSteps(l: nat, outcomes: seq<Outcome>): seq<Step>
    decreases |outcomes|
  {
    if outcomes == [] then []
    else DrainSteps(l, outcomes[..|outcomes| - 1]) + [Receive(l), Finish(l, outcomes[|outcomes| - 1])]
  }

  lemma NoTurn(s: ActorState, l: nat)
    ensures RunFrom(s, DrainSteps(l, [])) == s
  {
  }

  lemma OneMoreTurn(s: ActorState, l: nat, outcomes: seq<Outcome>, i: nat)
    requires i < |outcomes|
    ensures RunFrom(s, DrainSteps(l, outcomes[..i + 1]))
         == Next(Next(RunFrom(s, DrainSteps(l, outcomes[..i])), Receive(l)), Finish(l, outcomes[i]))
  {
    hide Next, RunFrom;
    assert outcomes[..i + 1][..i] == outcomes[..i];
    RunMore(s, DrainSteps(l, outcomes[..i]), Receive(l), Finish(l, outcomes[i]));
  }

  lemma RunMore(s: ActorState, steps: seq<Step>, a: Step, b: Step)
    ensures RunFrom(s, steps + [a, b]) == Next(Next(RunFrom(s, steps), a), b)
  {
    hide Next;
    assert (steps + [a, b])[..|steps| + 1] == steps + [a];
    assert (steps + [a])[..|steps|] == steps;
  }

  /** One turn of the drain loop. */
  lemma DrainTurn(s: ActorState, l: nat, outcome: Outcome)
    requires At(s, l, Draining) && s.inbox != []
    ensures var r := Next(s, Receive(l)); var t := Next(r, Finish(l, outcome));
      && IsHandling(r, l) && r.loops[l].letter == s.inbox[0]
      && At(t, l, Draining) && t.inbox == s.inbox[1..] && t.handled == s.handled + [s.inbox[0]]
  {
  }

  lemma DrainLast(s: ActorState, l: nat)
    ensures var t := Next(s, DrainEmpty(l)); t == s.(loops := t.loops, emptiedAt := t.emptiedAt, now := t.now)
  {
  }

  class BaseActor {
    var inbox: seq<int>
    const inboxCap: nat
    var cancelled: bool
    var running: bool
    var processed: nat
    var errors: nat
    var wg: nat
    ghost var s: ActorState    // the protocol's state: these fields, the goroutines and the history

    ghost predicate Valid()
      reads this
    {
      && |inbox| == |s.inbox| && (forall i :: 0 <= i < |inbox| ==> inbox[i] == s.inbox[i].body)
      && inboxCap == s.inboxCap && cancelled == s.cancelled && running == s.running
      && processed == s.processed && errors == s.errors && wg == s.wg
    }

    constructor (inboxCap: int)
      ensures Valid() && s == NewActor(inboxCap)
    {
      inbox, cancelled, running, processed, errors, wg := [], false, false, 0, 0, 0;
      this.inboxCap := if inboxCap <= 0 then DEFAULT_INBOX_CAP else inboxCap;
      s := NewActor(inboxCap);
    }

    method Start()
      requires Valid()
      modifies this
      ensures Valid()
      ensures s == if old(running) then Next(old(s), StartSwap) else Next(Next(old(s), StartSwap), StartLaunch)
    {
      s := Next(s, StartSwap);
      if running {
        return;
      }
      running := true;
      s := Next(s, StartLaunch);
      wg := wg + 1;
    }

    /** Refused if not running or full, and otherwise the message goes to the end of the inbox. */
    method Send(body: int) returns (sent: bool)
      requires Valid() && s.nextSend !in s.pending
      modifies this
      ensures Valid()
      ensures sent <==> old(running) && |old(inbox)| < inboxCap
      ensures inbox == if sent then old(inbox) + [body] else old(inbox)
      ensures s == if old(running) then Next(Next(old(s), SendCheck(body)), SendEnqueue(old(s.nextSend)))
                   else Next(old(s), SendCheck(body))
    {
      ghost var n := s.nextSend;
      s := Next(s, SendCheck(body));
      if !running {
        return false;
      }
      s := Next(s, SendEnqueue(n));
      if |inbox| < inboxCap {
        inbox := inbox + [body];
        return true;
      }
      return false;
    }

    /** The handler's outcome is counted; a panic skips the last line and is counted as an error. */
    method ProcessMessage(ghost l: nat, body: int, outcome: Outcome)
      requires Valid() && IsHandling(s, l) && s.loops[l].letter.body == body
      modifies this`processed, this`errors, this`s
      ensures Valid() && s == Next(old(s), Finish(l, outcome))
    {
      s := Next(s, Finish(l, outcome));
      if outcome.Panicked? {
        errors := errors + 1;
        return;
      }
      if outcome.Failed? {
        errors := errors + 1;
      }
      processed := processed + 1;
    }

    method Receive(ghost l: nat) returns (body: int)
      requires Valid() && inbox != [] && (At(s, l, Selecting) || At(s, l, Draining))
      modifies this`inbox, this`s
      ensures Valid() && s == Next(old(s), Step.Receive(l)) && body == old(inbox)[0]
    {
      s := Next(s, Step.Receive(l));
      body, inbox := inbox[0], inbox[1..];
    }

    /** `outcomes` holds what the handler does with each waiting message. */
    method Drain(ghost l: nat, outcomes: seq<Outcome>)
      requires Valid() && At(s, l, Draining) && |outcomes| == |inbox|
      modifies this`inbox, this`processed, this`errors, this`s
      ensures Valid() && inbox == []
      ensures s == Next(RunFrom(old(s), DrainSteps(l, outcomes)), DrainEmpty(l))
      ensures s.handled == old(s.handled) + old(s.inbox)
    {
      hide Next, At, IsHandling, RunFrom, DrainSteps;
      var i := 0;
      NoTurn(s, l);
      while |inbox| > 0
        invariant Valid() && At(s, l, Draining)
        invariant 0 <= i <= |outcomes| && s.inbox == old(s.inbox)[i..]
        invariant s == RunFrom(old(s), DrainSteps(l, outcomes[..i]))
        invariant s.handled == old(s.handled) + old(s.inbox)[..i]
      {
        OneMoreTurn(old(s), l, outcomes, i);
        DrainTurn(s, l, outcomes[i]);
        assert old(s.inbox)[..i + 1] == old(s.inbox)[..i] + [old(s.inbox)[i]];
        var body := Receive(l);
        ProcessMessage(l, body, outcomes[i]);
        i := i + 1;
      }
      assert outcomes[..i] == outcomes;
      DrainLast(s, l);
      s := Next(s, DrainEmpty(l));
    }

    /** The deferred calls of the loop: the flag is cleared before the wait group is told. */
    method Exit(ghost l: nat)
      requires Valid() && At(s, l, Returning) && wg > 0
      modifies this`running, this`wg, this`s
      ensures Valid() && s == Next(Next(old(s), ClearRunning(l)), WaitGroupDone(l))
    {
      s := Next(s, ClearRunning(l));
      running := false;
      s := Next(s, WaitGroupDone(l));
      wg := wg - 1;
    }

    /** The first half of Stop; its wait for `wg` is `WaitOver`. */
    method Cancel()
      requires Valid()
      modifies this`cancelled, this`s
      ensures Valid() && s == Next(old(s), Step.Cancel)
    {
      s := Next(s, Step.Cancel);
      cancelled := true;
    }
  }
}
