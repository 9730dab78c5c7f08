/**
  ActorSystem as a transition system: Register and Unregister calls interleave in atomic
  steps.  Each touches the map first and the counter in a later step; an actor is started only
  after it was counted, and stopped only after it was discounted.
*/
module Registry {
  import opened Prelude

  type ActorId = int
  type Actor = int

  /** What a call that has changed the map still has to do. */
  datatype Call =
    | ToCountUp(actor: Actor)
    | ToStart(actor: Actor)
    | ToCountDown(actor: Actor)
    | ToStop(actor: Actor)

  datatype System = System(
    actors: map<ActorId, Actor>,
    count: int,
    calls: map<nat, Call>,
    nextCall: nat,
    started: set<Actor>,
    stopped: set<Actor>,         // told to stop
    // history: successful Registers and Unregisters of each id
    registered: map<ActorId, nat>,
    removed: map<ActorId, nat>)

  datatype Step =
    | Register(id: ActorId, actor: Actor)
    | CountUp(c: nat)
    | StartActor(c: nat)
    | Unregister(id: ActorId)
    | CountDown(c: nat)
    | StopActor(c: nat)

  const NewSystem := System(map[], 0, map[], 0, {}, {}, map[], map[])

  function Times(m: map<ActorId, nat>, id: ActorId): nat { if id in m then m[id] else 0 }

  /** Register answers ErrActorExists, Unregister ErrActorNotFound. */
  predicate Refused(s: System, step: Step) {
    match step
    case Register(id, _) => id in s.actors
    case Unregister(id) => id !in s.actors
    case _ => false
  }

  function Next(s: System, step: Step): System {
    match step
    case Register(id, actor) =>
      if id in s.actors then s
      else s.(actors := s.actors[id := actor],
              calls := s.calls[s.nextCall := ToCountUp(actor)], nextCall := s.nextCall + 1,
              registered := s.registered[id := Times(s.registered, id) + 1])
    case CountUp(c) =>
      if c in s.calls && s.calls[c].ToCountUp?
      then s.(count := s.count + 1, calls := s.calls[c := ToStart(s.calls[c].actor)])
      else s
    case StartActor(c) =>
      if c in s.calls && s.calls[c].ToStart?
      then s.(started := s.started + {s.calls[c].actor}, calls := s.calls - {c})
      else s
    case Unregister(id) =>
      if id !in s.actors then s
      else s.(actors := s.actors - {id},
              calls := s.calls[s.nextCall := ToCountDown(s.actors[id])], nextCall := s.nextCall + 1,
              removed := s.removed[id := Times(s.removed, id) + 1])
    case CountDown(c) =>
      if c in s.calls && s.calls[c].ToCountDown?
      then s.(count := s.count - 1, calls := s.calls[c := ToStop(s.calls[c].actor)])
      else s
    case StopActor(c) =>
      if c in s.calls && s.calls[c].ToStop?
      then s.(stopped := s.stopped + {s.calls[c].actor}, calls := s.calls - {c})
      else s
  }

  function Run(steps: seq<Step>): System
    decreases |steps|
  {
    if steps == [] then NewSystem else Next(Run(steps[..|steps| - 1]), steps[|steps| - 1])
  }

  /** Registrations stored but not yet counted, and deletions not yet counted. */
  function Ups(calls: map<nat, Call>): set<nat> { set c | c in calls && calls[c].ToCountUp? }
  function Downs(calls: map<nat, Call>): set<nat> { set c | c in calls && calls[c].ToCountDown? }

  ghost predicate Fresh(calls: map<nat, Call>, nextCall: nat) {
    forall c :: c in calls ==> c < nextCall
  }

  ghost predicate Balanced(s: System) {
    s.count == |s.actors| - |Ups(s.calls)| + |Downs(s.calls)|
  }

  /** Every stored actor has been started, or its Register is still on its way to starting it. */
  ghost predicate StartsComing(s: System) {
    forall id :: id in s.actors ==>
      || s.actors[id] in s.started
      || exists c :: c in s.calls && (s.calls[c] == ToCountUp(s.actors[id]) || s.calls[c] == ToStart(s.actors[id]))
  }

  ghost predicate OncePerRemoval(s: System) {
    forall id :: Times(s.registered, id) == Times(s.removed, id) + (if id in s.actors then 1 else 0)
  }

  ghost predicate SystemOk(s: System) {
    Fresh(s.calls, s.nextCall) && Balanced(s) && StartsComing(s) && OncePerRemoval(s)
  }

  lemma MapSizes<T>(m: map<int, T>, k: int, v: T)
    ensures k !in m ==> |m[k := v]| == |m| + 1
    ensures k in m ==> |m - {k}| == |m| - 1
  {
    assert |m| == |m.Keys|;
    assert m[k := v].Keys == m.Keys + {k};
    assert (m - {k}).Keys == m.Keys - {k};
  }

  function Up(w: Call): nat { if w.ToCountUp? then 1 else 0 }
  function Down(w: Call): nat { if w.ToCountDown? then 1 else 0 }

  /** A new call joins the ones under way. */
  lemma CallAdded(calls: map<nat, Call>, c: nat, w: Call)
    requires c !in calls
    ensures |Ups(calls[c := w])| == |Ups(calls)| + Up(w)
    ensures |Downs(calls[c := w])| == |Downs(calls)| + Down(w)
  {
    UpAdded(calls, c, w);
    DownAdded(calls, c, w);
  }

  lemma UpAdded(calls: map<nat, Call>, c: nat, w: Call)
    requires c !in calls
    ensures |Ups(calls[c := w])| == |Ups(calls)| + Up(w)
  {
    if w.ToCountUp? {
      assert Ups(calls[c := w]) == Ups(calls) + {c};
    } else {
      assert Ups(calls[c := w]) == Ups(calls);
    }
  }

  lemma DownAdded(calls: map<nat, Call>, c: nat, w: Call)
    requires c !in calls
    ensures |Downs(calls[c := w])| == |Downs(calls)| + Down(w)
  {
    if w.ToCountDown? {
      assert Downs(calls[c := w]) == Downs(calls) + {c};
    } else {
      assert Downs(calls[c := w]) == Downs(calls);
    }
  }

  lemma CallEnds(calls: map<nat, Call>, c: nat)
    requires c in calls
    ensures |Ups(calls - {c})| == |Ups(calls)| - Up(calls[c])
    ensures |Downs(calls - {c})| == |Downs(calls)| - Down(calls[c])
  {
    hide Ups, Downs;
    assert (calls - {c})[c := calls[c]] == calls;
    CallAdded(calls - {c}, c, calls[c]);
  }

  /** A call under way moves on. */
  lemma CallMoves(calls: map<nat, Call>, c: nat, w: Call)
    requires c in calls
    ensures |Ups(calls[c := w])| == |Ups(calls)| - Up(calls[c]) + Up(w)
    ensures |Downs(calls[c := w])| == |Downs(calls)| - Down(calls[c]) + Down(w)
  {
    hide Ups, Downs;
    CallEnds(calls, c);
    assert (calls - {c})[c := w] == calls[c := w];
    CallAdded(calls - {c}, c, w);
  }

  lemma FreshKept(s: System, step: Step)
    requires Fresh(s.calls, s.nextCall)
    ensures Fresh(Next(s, step).calls, Next(s, step).nextCall)
  {
  }

  lemma RegisterBalanced(s: System, id: ActorId, actor: Actor)
    requires s.nextCall !in s.calls && Balanced(s)
    ensures Balanced(Next(s, Register(id, actor)))
  {
    hide Ups, Downs;
    if id !in s.actors {
      MapSizes(s.actors, id, actor);
      CallAdded(s.calls, s.nextCall, ToCountUp(actor));
    }
  }

  lemma UnregisterBalanced(s: System, id: ActorId)
    requires s.nextCall !in s.calls && Balanced(s)
    ensures Balanced(Next(s, Unregister(id)))
  {
    hide Ups, Downs;
    if id in s.actors {
      MapSizes(s.actors, id, s.actors[id]);
      CallAdded(s.calls, s.nextCall, ToCountDown(s.actors[id]));
    }
  }

  lemma CallBalanced(s: System, step: Step)
    requires Balanced(s) && !step.Register? && !step.Unregister?
    ensures Balanced(Next(s, step))
  {
    hide Ups, Downs;
    if step.c in s.calls {
      var w := s.calls[step.c];
      match step
      case CountUp(c) => CallMoves(s.calls, c, ToStart(w.actor));
      case StartActor(c) => CallEnds(s.calls, c);
      case CountDown(c) => CallMoves(s.calls, c, ToStop(w.actor));
      case StopActor(c) => CallEnds(s.calls, c);
    }
  }

  lemma BalanceKept(s: System, step: Step)
    requires Fresh(s.calls, s.nextCall) && Balanced(s)
    ensures Balanced(Next(s, step)) && Fresh(Next(s, step).calls, Next(s, step).nextCall)
  {
    hide Next, Balanced;
    FreshKept(s, step);
    match step
    case Register(id, actor) => RegisterBalanced(s, id, actor);
    case Unregister(id) => UnregisterBalanced(s, id);
    case _ => CallBalanced(s, step);
  }

  lemma StartsKept(s: System, step: Step)
    requires Fresh(s.calls, s.nextCall) && StartsComing(s)
    ensures StartsComing(Next(s, step))
  {
    var t := Next(s, step);
    forall id | id in t.actors
      ensures t.actors[id] in t.started
        || exists c :: c in t.calls && (t.calls[c] == ToCountUp(t.actors[id]) || t.calls[c] == ToStart(t.actors[id]))
    {
      var actor := t.actors[id];
      if id !in s.actors {
        assert t.calls[s.nextCall] == ToCountUp(actor);
      } else if actor !in s.started {
        var c :| c in s.calls && (s.calls[c] == ToCountUp(actor) || s.calls[c] == ToStart(actor));
        assert actor in t.started || c in t.calls;
      }
    }
  }

  lemma OnceKept(s: System, step: Step)
    requires OncePerRemoval(s)
    ensures OncePerRemoval(Next(s, step))
  {
  }

  lemma {:induction false} RunOk(steps: seq<Step>)
    ensures SystemOk(Run(steps))
    decreases |steps|
  {
    if steps != [] {
      var s, step := Run(steps[..|steps| - 1]), steps[|steps| - 1];
      RunOk(steps[..|steps| - 1]);
      BalanceKept(s, step);
      StartsKept(s, step);
      OnceKept(s, step);
      hide Next, Balanced, StartsComing, OncePerRemoval, Fresh;
    } else {
      NewOk();
    }
  }

  lemma NewOk()
    ensures SystemOk(NewSystem)
  {
    assert Ups(map[]) == {} && Downs(map[]) == {};
  }

  /**
    Under every interleaving Count is the number of stored actors, less the registrations not yet
    counted, plus the deletions not yet counted; with no call in between it is the map's size.
  */
  lemma CountIsExact(steps: seq<Step>)
    ensures var s := Run(steps);
      && s.count == |s.actors| - |Ups(s.calls)| + |Downs(s.calls)|
      && (s.calls == map[] ==> s.count == |s.actors|)
  {
    hide Next, Run;
    RunOk(steps);
    assert Run(steps).calls == map[] ==> Ups(Run(steps).calls) == {} && Downs(Run(steps).calls) == {};
  }

  /** In every run an id has been registered once more than removed if it is stored, else equally often. */
  lemma OneRegistrationPerRemoval(steps: seq<Step>, id: ActorId)
    ensures var s := Run(steps);
      Times(s.registered, id) == Times(s.removed, id) + (if id in s.actors then 1 else 0)
  {
    hide Next, Run;
    RunOk(steps);
  }

  /** So while nothing removes an id, at most one Register of it succeeds. */
  lemma AtMostOneRegister(before: seq<Step>, after: seq<Step>, id: ActorId)
    requires Times(Run(before + after).removed, id) == Times(Run(before).removed, id)
    ensures Times(Run(before + after).registered, id) <= Times(Run(before).registered, id) + 1
  {
    hide Next, Run;
    OneRegistrationPerRemoval(before, id);
    OneRegistrationPerRemoval(before + after, id);
  }

  /** An actor that Get finds and that is not started has its Register call still under way. */
  lemma FoundIsStartedSoon(steps: seq<Step>, id: ActorId)
    requires id in Run(steps).actors
    ensures var s := Run(steps); var actor := s.actors[id];
      || actor in s.started
      || exists c :: c in s.calls && (s.calls[c] == ToCountUp(actor) || s.calls[c] == ToStart(actor))
  {
    hide Next, Run;
    RunOk(steps);
  }

  /** Between the two steps the counter can even be negative: the delete is counted before the store. */
  lemma CountCanBeNegative()
    ensures exists steps :: Run(steps).count < 0
  {
    var a, b, c := Register(1, 7), Unregister(1), CountDown(1);
    assert [a, b, c][..2] == [a, b] && [a, b][..1] == [a] && [a][..0] == [];
    assert Run([a]) == Next(NewSystem, a);
    assert Run([a, b]) == Next(Run([a]), b);
    assert Run([a, b, c]) == Next(Run([a, b]), c);
    assert Run([a, b, c]).count == -1;
  }

  // ----- What the history of calls decides -----

  /** Whom the last successful Register of an id stored, unless an Unregister came later. */
  function Stored(steps: seq<Step>, id: ActorId): Option<Actor>
    decreases |steps|
  {
    if steps == [] then None
    else
      var before := Stored(steps[..|steps| - 1], id);
      match steps[|steps| - 1]
      case Register(i, actor) => if i == id && before.None? then Some(actor) else before
      case Unregister(i) => if i == id then None else before
      case _ => before
  }

  /** The actors that were ever stored. */
  function Added(steps: seq<Step>): set<Actor>
    decreases |steps|
  {
    if steps == [] then {}
    else
      var front, last := steps[..|steps| - 1], steps[|steps| - 1];
      Added(front) + if last.Register? && Stored(front, last.id).None? then {last.actor} else {}
  }

  /** The actors that were ever removed. */
  function Removed(steps: seq<Step>): set<Actor>
    decreases |steps|
  {
    if steps == [] then {}
    else
      var front, last := steps[..|steps| - 1], steps[|steps| - 1];
      Removed(front) + if last.Unregister? && Stored(front, last.id).Some? then {Stored(front, last.id).value} else {}
  }

  /** The registry holds exactly what the history of its calls says. */
  lemma {:induction false} ActorsFollowHistory(steps: seq<Step>, id: ActorId)
    ensures var s := Run(steps);
      (if id in s.actors then Some(s.actors[id]) else None) == Stored(steps, id)
    decreases |steps|
  {
    if steps != [] {
      ActorsFollowHistory(steps[..|steps| - 1], id);
    }
  }

  predicate IsStarting(w: Call, actor: Actor) { w == ToCountUp(actor) || w == ToStart(actor) }

  predicate IsStopping(w: Call, actor: Actor) { w == ToCountDown(actor) || w == ToStop(actor) }

  /** An actor was started, or is about to be, exactly if it was stored; and told to stop if it was removed. */
  ghost predicate Told(s: System, added: set<Actor>, removed: set<Actor>, actor: Actor) {
    && (actor in added <==> actor in s.started || exists c :: c in s.calls && IsStarting(s.calls[c], actor))
    && (actor in removed <==> actor in s.stopped || exists c :: c in s.calls && IsStopping(s.calls[c], actor))
  }

  ghost predicate StartingBut(calls: map<nat, Call>, c: nat, actor: Actor) {
    exists d :: d in calls && d != c && IsStarting(calls[d], actor)
  }

  ghost predicate StoppingBut(calls: map<nat, Call>, c: nat, actor: Actor) {
    exists d :: d in calls && d != c && IsStopping(calls[d], actor)
  }

  lemma OneOrAnother(calls: map<nat, Call>, c: nat, actor: Actor)
    ensures (exists d :: d in calls && IsStarting(calls[d], actor))
      <==> (c in calls && IsStarting(calls[c], actor)) || StartingBut(calls, c, actor)
    ensures (exists d :: d in calls && IsStopping(calls[d], actor))
      <==> (c in calls && IsStopping(calls[c], actor)) || StoppingBut(calls, c, actor)
  {
    hide IsStarting, IsStopping;
  }

  lemma SameBut(a: map<nat, Call>, b: map<nat, Call>, c: nat, actor: Actor)
    requires forall d :: d != c ==> (d in a <==> d in b) && (d in a ==> b[d] == a[d])
    ensures StartingBut(a, c, actor) <==> StartingBut(b, c, actor)
    ensures StoppingBut(a, c, actor) <==> StoppingBut(b, c, actor)
  {
    hide IsStarting, IsStopping;
  }

  /** The call that a step starts or moves on. */
  function CallOf(s: System, step: Step): nat {
    match step
    case Register(_, _) => s.nextCall
    case Unregister(_) => s.nextCall
    case CountUp(c) => c
    case StartActor(c) => c
    case CountDown(c) => c
    case StopActor(c) => c
  }

  lemma OneCallMoves(s: System, step: Step)
    requires Fresh(s.calls, s.nextCall)
    ensures var t, c := Next(s, step), CallOf(s, step);
      forall d :: d != c ==> (d in s.calls <==> d in t.calls) && (d in s.calls ==> t.calls[d] == s.calls[d])
  {
  }

  /** What a step does to its own call, and to those started and told to stop. */
  lemma MoveTold(s: System, step: Step, actor: Actor)
    requires Fresh(s.calls, s.nextCall)
    ensures var t, c := Next(s, step), CallOf(s, step);
      var adds, removes := step.Register? && step.id !in s.actors, step.Unregister? && step.id in s.actors;
      && ((actor in t.started || (c in t.calls && IsStarting(t.calls[c], actor)))
          <==> actor in s.started || (c in s.calls && IsStarting(s.calls[c], actor)) || (adds && step.actor == actor))
      && ((actor in t.stopped || (c in t.calls && IsStopping(t.calls[c], actor)))
          <==> actor in s.stopped || (c in s.calls && IsStopping(s.calls[c], actor))
               || (removes && s.actors[step.id] == actor))
  {
  }

  lemma ToldKept(s: System, step: Step, added: set<Actor>, removed: set<Actor>, actor: Actor)
    requires Fresh(s.calls, s.nextCall) && Told(s, added, removed, actor)
    ensures Told(Next(s, step),
                 added + (if step.Register? && step.id !in s.actors then {step.actor} else {}),
                 removed + (if step.Unregister? && step.id in s.actors then {s.actors[step.id]} else {}), actor)
  {
    var t, c := Next(s, step), CallOf(s, step);
    OneCallMoves(s, step);
    SameBut(s.calls, t.calls, c, actor);
    OneOrAnother(s.calls, c, actor);
    OneOrAnother(t.calls, c, actor);
    hide StartingBut, StoppingBut;
    assert Fresh(s.calls, s.nextCall);
    MoveTold(s, step, actor);
    hide Next;
  }

  lemma {:induction false} ToldInRuns(steps: seq<Step>, actor: Actor)
    ensures Told(Run(steps), Added(steps), Removed(steps), actor)
    decreases |steps|
  {
    if steps != [] {
      var front, last := steps[..|steps| - 1], steps[|steps| - 1];
      ToldInRuns(front, actor);
      RunOk(front);
      if last.Register? || last.Unregister? {
        ActorsFollowHistory(front, last.id);
      }
      hide Next, Told, Balanced, StartsComing, OncePerRemoval, Stored;
      ToldKept(Run(front), last, Added(front), Removed(front), actor);
    }
  }

  /**
    In every run exactly the actors that were ever stored have been started or have a Register call
    on its way to starting them, and exactly those ever removed have been told to stop or have an
    Unregister call on its way to telling them.
  */
  lemma EverybodyIsTold(steps: seq<Step>, actor: Actor)
    ensures var s := Run(steps);
      && (actor in Added(steps)
          <==> actor in s.started || exists c :: c in s.calls && IsStarting(s.calls[c], actor))
      && (actor in Removed(steps)
          <==> actor in s.stopped || exists c :: c in s.calls && IsStopping(s.calls[c], actor))
  {
    hide Run, Added, Removed;
    ToldInRuns(steps, actor);
  }

  /** Every call under way ends after its own two steps, whatever it was. */
  lemma CallsEnd(s: System, c: nat)
    requires c in s.calls
    ensures c !in Next(Next(Next(Next(s, CountUp(c)), CountDown(c)), StartActor(c)), StopActor(c)).calls
  {
  }
}
