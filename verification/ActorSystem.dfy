/**
  ActorSystem as an object.  Each method is one call running undisturbed; it is proved to take
  exactly the steps of `Registry` that its body stands for.
*/
module ActorSystem {
  import opened Prelude
  import opened Registry

  class ActorSystem {
    var actors: map<ActorId, Actor>
    var count: int
    var started: set<Actor>
    var stopped: set<Actor>
    ghost var s: System    // the protocol's state: these fields, the calls under way and the history

    ghost predicate Valid()
      reads this
    {
      && actors == s.actors && count == s.count && started == s.started && stopped == s.stopped
      && Fresh(s.calls, s.nextCall)
    }

    constructor ()
      ensures Valid() && s == NewSystem
    {
      actors, count, started, stopped := map[], 0, {}, {};
      s := NewSystem;
    }

    /** ErrActorExists exactly if the id is taken; otherwise the actor is stored, counted and started. */
    method Register(id: ActorId, actor: Actor) returns (ok: bool)
      requires Valid()
      modifies this
      ensures Valid()
      ensures ok <==> id !in old(actors)
      ensures s == if !ok then old(s)
                   else var c := old(s.nextCall);
                        Next(Next(Next(old(s), Step.Register(id, actor)), CountUp(c)), StartActor(c))
      ensures ok ==> actors == old(actors)[id := actor] && count == old(count) + 1 && actor in started
    {
      if id in actors {
        return false;
      }
      ghost var c := s.nextCall;
      s := Next(s, Step.Register(id, actor));
      actors := actors[id := actor];
      s := Next(s, CountUp(c));
      count := count + 1;
      s := Next(s, StartActor(c));
      started := started + {actor};
      return true;
    }

    /** ErrActorNotFound exactly if the id is not stored. */
    method Unregister(id: ActorId) returns (ok: bool)
      requires Valid()
      modifies this
      ensures Valid()
      ensures ok <==> id in old(actors)
      ensures s == if !ok then old(s)
                   else var c := old(s.nextCall);
                        Next(Next(Next(old(s), Step.Unregister(id)), CountDown(c)), StopActor(c))
      ensures ok ==> actors == old(actors) - {id} && count == old(count) - 1 && old(actors[id]) in stopped
    {
      if id !in actors {
        return false;
      }
      ghost var c := s.nextCall;
      var actor := actors[id];
      s := Next(s, Step.Unregister(id));
      actors := actors - {id};
      s := Next(s, CountDown(c));
      count := count - 1;
      s := Next(s, StopActor(c));
      stopped := stopped + {actor};
      return true;
    }

    /** Also where SendTo looks before it sends. */
    method Get(id: ActorId) returns (actor: Option<Actor>)
      requires Valid()
      ensures actor == if id in s.actors then Some(s.actors[id]) else None
    {
      if id !in actors {
        return None;
      }
      return Some(actors[id]);
    }

    method Count() returns (n: int)
      requires Valid()
      ensures n == s.count
    {
      return count;
    }
  }
}
