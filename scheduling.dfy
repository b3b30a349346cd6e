/**
 * The repeating-timer primitive the destination nodes share, reduced to the
 * set of armed intervals: each has an id, the node that armed it and the
 * frame rate it was armed at. Firing is modelled by calling the owner's tick.
 */
module Scheduling {

  /** An armed interval: the id of the node whose tick it runs, and the frame rate captured when it was armed. */
  datatype Interval = Interval(owner: nat, frameRate: int)

  /** Clearing one set of intervals and then another clears their union. */
  lemma ClearedInTurn(a: map<nat, Interval>, s1: set<nat>, s2: set<nat>)
    ensures a - s1 - s2 == a - (s1 + s2)
  {
  }

  class IntervalTimer {
    var armed: map<nat, Interval>
    var nextId: nat

    /** Ids are positive and handed out once, so id 0 is never armed. */
    ghost predicate Valid()
      reads this
    {
      0 < nextId && forall id | id in armed :: 0 < id < nextId
    }

    constructor ()
      ensures Valid() && armed == map[]
    {
      armed := map[];
      nextId := 1;
    }

    /** `setInterval`: arms a new interval under a fresh id. */
    method SetInterval(owner: nat, frameRate: int) returns (id: nat)
      requires Valid()
      modifies this
      ensures Valid()
      ensures 0 < id && id !in old(armed)
      ensures armed == old(armed)[id := Interval(owner, frameRate)]
    {
      id := nextId;
      nextId := nextId + 1;
      armed := armed[id := Interval(owner, frameRate)];
    }

    /** `clearInterval`: disarms `id`; an id that is not armed is ignored. */
    method ClearInterval(id: nat)
      requires Valid()
      modifies this`armed
      ensures Valid()
      ensures armed == old(armed) - {id}
    {
      armed := armed - {id};
    }
  }
}
