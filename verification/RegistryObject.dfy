/** The agent's registry as its code mutates it, and the idempotent slot a reservation hands out. */
module RegistryObject {
  import opened Options
  import opened Registry

  /** A claimed slot; releasing it twice releases it once. */
  class Slot {
    var released: bool

    constructor ()
      ensures !released
    {
      released := false;
    }
  }

  class AgentObject {
    const max: nat
    var closed: bool
    var sessions: map<SessionId, Object>
    var ephemeral: set<SessionId>
    var deleted: set<SessionId>
    var starting: nat
    var gauge: int
    ghost var slots: set<Slot>          // handed out and not released

    /** The registry's fields; which requests are under way is not its to know. */
    ghost function Abs(): Agent
      reads this
    {
      Agent(max, closed, sessions, ephemeral, deleted, starting, gauge, map[], 0)
    }

    ghost predicate Valid()
      reads this, slots
    {
      starting == |slots| && forall s :: s in slots ==> !s.released
    }

    constructor (max0: nat)
      ensures Valid() && max == max0 && !closed && sessions == map[] && slots == {} && gauge == 0 && deleted == {}
    {
      max := max0;
      closed, sessions, ephemeral, deleted, starting, gauge, slots := false, map[], {}, {}, 0, 0, {};
    }

    method ReserveSlot() returns (slot: Slot?)
      requires Valid()
      modifies `starting, `slots
      ensures Valid()
      ensures slot != null <==> !closed && |sessions| + old(starting) < max
      ensures slot != null ==> fresh(slot) && slots == old(slots) + {slot} && starting == old(starting) + 1
      ensures slot == null ==> slots == old(slots) && starting == old(starting)
    {
      if closed || |sessions| + starting >= max {
        return null;
      }
      slot := new Slot();
      starting := starting + 1;
      slots := slots + {slot};
    }

    method ReleaseSlot(slot: Slot)
      requires Valid() && (slot in slots || slot.released)
      modifies `starting, `slots, slot
      ensures Valid() && slot.released && slots == old(slots) - {slot}
      ensures starting == old(starting) - if old(slot.released) then 0 else 1
    {
      if slot.released {
        return;
      }
      assert slots == (slots - {slot}) + {slot} && |slots| == |slots - {slot}| + 1;
      slot.released := true;
      starting := starting - 1;
      slots := slots - {slot};
    }

    /** Publishes a configured session under its id; the gauge is raised after the lock. */
    method Install(id: SessionId, s: Object, ephemeralSession: bool) returns (installed: bool)
      requires Valid()
      modifies `sessions, `ephemeral
      ensures Valid() && Abs() == NextAgent(old(Abs()), Building(id, s), Step.Install(ephemeralSession))
      ensures installed <==> !closed && id !in deleted && id !in old(sessions)
      ensures sessions == if installed then old(sessions)[id := s] else old(sessions)
      ensures ephemeral == if installed && ephemeralSession then old(ephemeral) + {id} else old(ephemeral)
    {
      if closed {
        return false;
      }
      if id in deleted {
        return false;
      }
      if id in sessions {
        return false;
      }
      sessions := sessions[id := s];
      if ephemeralSession {
        ephemeral := ephemeral + {id};
      }
      installed := true;
    }

    method AddActiveSession(delta: int)
      requires Valid()
      modifies `gauge
      ensures Valid() && gauge == old(gauge) + delta
    {
      gauge := gauge + delta;
    }

    /** Removes exactly this object; one that replaced it stays. */
    method Detach(id: SessionId, s: Object) returns (current: bool)
      requires Valid()
      modifies `sessions
      ensures Valid() && Abs() == NextAgent(old(Abs()), Detaching(id, s, Leave), Step.Detach)
      ensures current <==> id in old(sessions) && old(sessions)[id] == s
      ensures sessions == if current then old(sessions) - {id} else old(sessions)
    {
      current := id in sessions && sessions[id] == s;
      if current {
        sessions := sessions - {id};
      }
    }

    /** Delete's mark: from here the id resolves to nothing. */
    method MarkDeleted(id: SessionId) returns (s: Option<Object>)
      requires Valid()
      modifies `deleted, `ephemeral
      ensures Valid() && Abs() == NextAgent(old(Abs()), Deleting(id), Mark)
      ensures deleted == old(deleted) + {id} && ephemeral == old(ephemeral) - {id}
      ensures s == if id in sessions then Some(sessions[id]) else None
    {
      deleted := deleted + {id};
      ephemeral := ephemeral - {id};
      s := None;
      if id in sessions {
        s := Some(sessions[id]);
      }
    }

    method Session(id: SessionId) returns (s: Option<Object>)
      requires Valid()
      ensures s.Some? <==> !closed && id in sessions && id !in deleted
      ensures s.Some? ==> s == Some(sessions[id])
    {
      if closed {
        return None;
      }
      if id !in sessions || id in deleted {
        return None;
      }
      s := Some(sessions[id]);
    }

    /** The agent's close up to its ladder: nothing is installed after it, so this is all there is to shut. */
    method BeginClose() returns (first: bool, shutting: map<SessionId, Object>)
      requires Valid()
      modifies `closed
      ensures Valid() && Abs() == NextAgent(old(Abs()), Closing, Shut) && closed && first == !old(closed)
      ensures shutting == if first then sessions else map[]
    {
      first := !closed;
      shutting := map[];
      if first {
        closed := true;
        shutting := sessions;
      }
    }

    /** The ladder's own effect on the registry: every session of the snapshot that is still current is detached. */
    method DetachAll(shutting: map<SessionId, Object>)
      requires Valid() && closed && Within(sessions, shutting)
      modifies `sessions, `gauge
      ensures Valid() && sessions == map[] && gauge == old(gauge) - |old(sessions)|
    {
      var rest := shutting.Keys;
      while rest != {}
        invariant rest <= shutting.Keys
        invariant forall id :: id in sessions ==> id in rest && sessions[id] == shutting[id]
        invariant forall id :: id in sessions ==> id in old(sessions)
        invariant gauge == old(gauge) - |old(sessions)| + |sessions|
        invariant Valid()
        decreases rest
      {
        var id :| id in rest;
        rest := rest - {id};
        ghost var before := sessions;
        var current := Detach(id, shutting[id]);
        if current {
          assert before.Keys == sessions.Keys + {id};
          AddActiveSession(-1);
        }
      }
      assert sessions.Keys == {};
    }
  }
}
