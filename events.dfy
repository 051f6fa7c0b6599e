/**
 * Events exchanged between the simulation and the scenes (SceneStateEvent and its
 * subtypes), the per-observer pending lists and the process-wide bus (MainEventBus)
 * that delivers a posted event to every registered observer.
 */
module Events {

  datatype EventType =
    | CHANGE_SCENE
    | EXIT_GAME
    | FLIP_MENU
    | SPAWN_NEW_ENTITY
    | DESPAWN_ENTITY
    | TANK_HIT
    | SPAWN_GROUP
    | TIME_UP

  /**
   * An event on the bus. A SceneStateEvent carries its subtype and the references of its
   * payload (null where the subtype has none); any other Event subclass is an OtherEvent,
   * which every observer in this model skips.
   */
  datatype Event =
    | SceneStateEvent(eventType: EventType, sender: object?, target: object?, sniper: object?, newScene: object?)
    | OtherEvent(tag: nat)

  /** `new SceneStateEvent(Type.EXIT_GAME)` */
  function ExitGameEvent(): Event {
    SceneStateEvent(EXIT_GAME, null, null, null, null)
  }

  /** `new SceneStateEvent(Type.DESPAWN_ENTITY, sender)` */
  function DespawnEvent(sender: object): Event {
    SceneStateEvent(DESPAWN_ENTITY, sender, null, null, null)
  }

  /** True when `e` is a SceneStateEvent of subtype `t`. */
  predicate IsStateEvent(e: Event, t: EventType) {
    e.SceneStateEvent? && e.eventType == t
  }

  /** The number of SceneStateEvents of subtype `t` in `evs`. */
  function CountType(evs: seq<Event>, t: EventType): nat {
    if evs == [] then 0
    else CountType(evs[..|evs| - 1], t) + (if IsStateEvent(evs[|evs| - 1], t) then 1 else 0)
  }

  /** `t` is counted exactly when some event of subtype `t` is in `evs`. */
  lemma {:induction false} CountTypePositive(evs: seq<Event>, t: EventType)
    ensures CountType(evs, t) > 0 <==> exists k :: 0 <= k < |evs| && IsStateEvent(evs[k], t)
  {
    if evs != [] {
      var init := evs[..|evs| - 1];
      CountTypePositive(init, t);
      assert forall k :: 0 <= k < |init| ==> init[k] == evs[k];
      if CountType(init, t) > 0 {
        var k :| 0 <= k < |init| && IsStateEvent(init[k], t);
        assert IsStateEvent(evs[k], t);
      }
    }
  }

  /** An observer's `List<Event> events`, which OnEvent appends to. */
  class EventList {
    var items: seq<Event>

    constructor ()
      ensures items == []
    {
      items := [];
    }

    method Add(e: Event)
      modifies this
      ensures items == old(items) + [e]
    {
      items := items + [e];
    }

    method Clear()
      modifies this
      ensures items == []
    {
      items := [];
    }
  }

  /**
   * MainEventBus: posting an event hands it to the OnEvent of every registered observer,
   * which appends it to that observer's list. An observer is represented here by its list.
   */
  class Bus {
    var subscribers: set<EventList>

    constructor ()
      ensures subscribers == {}
    {
      subscribers := {};
    }

    method Register(observer: EventList)
      modifies this
      ensures subscribers == old(subscribers) + {observer}
    {
      subscribers := subscribers + {observer};
    }

    /** Between the two states, exactly `evs` was posted: every subscriber received them, in order. */
    twostate predicate PostedExactly(evs: seq<Event>)
      reads this, subscribers
    {
      && subscribers == old(subscribers)
      && forall q :: q in subscribers ==> q.items == old(q.items) + evs
    }

    method PostEvent(e: Event)
      modifies subscribers
      ensures PostedExactly([e])
    {
      forall q | q in subscribers {
        q.items := q.items + [e];
      }
    }
  }
}
