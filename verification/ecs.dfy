/** The part of the Bevy world that the tether systems read and write: entity handles,
    the marker components they query for, and the distance joints between bodies. */
module Ecs {

  /** An entity handle; the world hands out fresh ones from a counter. */
  type Entity = nat

  datatype Option<+T> = None | Some(value: T)

  /** A distance joint between two bodies. Only its end points are kept; the
      `FinalJoint` and `TetherJoint` marker components it may carry are flags. */
  datatype Joint = Joint(entity1: Entity, entity2: Entity, isFinal: bool, isTether: bool)

  /** A snapshot of the world:
      - `next`: the next entity id to be handed out,
      - `bodies`: entities that carry a `Transform`,
      - `players`, `primaries`, `targets`: entities carrying the `Player`,
        `ChainPrimary` and `ChainTarget` markers,
      - `joints`: entities carrying a `DistanceJoint`. */
  datatype World = World(
    next: Entity,
    bodies: set<Entity>,
    players: set<Entity>,
    primaries: set<Entity>,
    targets: set<Entity>,
    joints: map<Entity, Joint>)
  {
    /** Every entity the world mentions was handed out before `next`. */
    ghost predicate Valid() {
      (forall e :: e in bodies ==> e < next) &&
      (forall e :: e in players ==> e < next) &&
      (forall e :: e in primaries ==> e < next) &&
      (forall e :: e in targets ==> e < next) &&
      (forall j :: j in joints ==> j < next && joints[j].entity1 < next && joints[j].entity2 < next)
    }

    /** The entities a query `With<M>` over a `Transform` matches, `marked` being those carrying `M`. */
    function WithTransform(marked: set<Entity>): (r: set<Entity>)
      ensures forall e :: e in r <==> e in marked && e in bodies
    {
      marked * bodies
    }

    /** `get_mut(e)` on a query for a `DistanceJoint` with `FinalJoint`. */
    predicate IsFinalJoint(e: Entity)
      ensures IsFinalJoint(e) <==> e in FinalJoints()
    {
      e in joints && joints[e].isFinal
    }

    /** `get(e)` on a query for a `Transform` with `ChainPrimary` and without `FinalJoint`. */
    predicate PrimaryGet(e: Entity)
      ensures PrimaryGet(e) <==> e in WithTransform(primaries) && e !in FinalJoints()
    {
      e in primaries && e in bodies && !IsFinalJoint(e)
    }

    /** `get(e)` on a query for a `Transform` with `ChainTarget` and without `FinalJoint`. */
    predicate TargetGet(e: Entity)
      ensures TargetGet(e) <==> e in WithTransform(targets) && e !in FinalJoints()
    {
      e in targets && e in bodies && !IsFinalJoint(e)
    }

    /** The joints carrying the `FinalJoint` marker. */
    ghost function FinalJoints(): set<Entity> {
      set j | j in joints && joints[j].isFinal
    }

    /** The joints carrying the `TetherJoint` marker. */
    ghost function TetherJoints(): set<Entity> {
      set j | j in joints && joints[j].isTether
    }
  }

  /** `get_single` on a query matching `s`: it succeeds exactly when one entity matches,
      and then yields that entity. */
  ghost function Single(s: set<Entity>): (r: Option<Entity>)
    ensures r.Some? <==> |s| == 1
    ensures r.Some? ==> s == {r.value}
  {
    if |s| == 1 then
      var e :| e in s;
      assert |s - {e}| == 0;
      assert s - {e} == {};
      Some(e)
    else
      None
  }
}
