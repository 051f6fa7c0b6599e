/**
 * TankPhysicsComponent: keeps a tank's hitbox dictionary in step with the tank.
 * The parent tank's pose (position, body direction, body sprite rectangle) is passed in
 * as values; the rectangle geometry itself is the input `update`.
 */
module TankPhysics {

  import opened Geometry

  const TANK_KEY: string := "Tank"

  /** The calls Update makes, in order, as recorded in `steps`. */
  datatype PhysicsStep = CheckedCloseness | UpdatedHitBox

  /** The first position of `key` among the keys of `entries`. */
  function IndexOf(entries: HitBoxEntries, key: string): (i: nat)
    requires key in Keys(entries)
    ensures i < |entries| && entries[i].0 == key
    ensures forall j :: 0 <= j < i ==> entries[j].0 != key
  {
    if entries[0].0 == key then 0
    else
      assert Keys(entries[1..]) == Keys(entries)[1..];
      1 + IndexOf(entries[1..], key)
  }

  class TankPhysicsComponent {
    var hitBoxes: HitBoxEntries     // HitBoxes.hitBoxesList
    var position: Coordinate        // HitBoxes.Position
    var collisionRange: int         // HitBoxes.CollisionRange
    var heightBox: int
    var widthBox: int
    ghost var steps: seq<PhysicsStep>

    /** The dictionary holds exactly one entry, keyed "Tank". */
    ghost predicate Valid()
      reads this
    {
      Keys(hitBoxes) == [TANK_KEY]
    }

    /** `new TankPhysicsComponent(owner)` */
    constructor (parentPosition: Coordinate, parentDirection: real, body: SpriteRect, update: RectangleUpdate)
      ensures Valid()
      ensures hitBoxes == [(TANK_KEY, update(NewRectangle(), parentPosition, parentDirection, body.w, body.h))]
      ensures position == parentPosition && widthBox == body.w && heightBox == body.h
      ensures collisionRange >= body.w && collisionRange >= body.h
      ensures collisionRange == body.w || collisionRange == body.h
      ensures steps == [UpdatedHitBox]
    {
      hitBoxes := [];
      position := Coordinate(0.0, 0.0);
      collisionRange := 0;
      heightBox := 0;
      widthBox := 0;
      steps := [];
      new;
      assert Keys(hitBoxes) == [];
      ghost var entry := (TANK_KEY, update(NewRectangle(), parentPosition, parentDirection, body.w, body.h));
      var added := InitializeHitBoxes(parentPosition, parentDirection, body, update);
      assert [] + [entry] == [entry];
      assert hitBoxes == [entry];
      assert Keys(hitBoxes)[0] == TANK_KEY;
    }

    /**
     * Adds the "Tank" rectangle and fills it in. Dictionary.Add refuses a key that is already
     * present (it throws): then `added` is false and nothing changes.
     */
    method InitializeHitBoxes(parentPosition: Coordinate, parentDirection: real, body: SpriteRect, update: RectangleUpdate)
      returns (added: bool)
      modifies this
      ensures added <==> TANK_KEY !in Keys(old(hitBoxes))
      ensures !added ==> unchanged(this)
      ensures added ==> hitBoxes == old(hitBoxes) + [(TANK_KEY, update(NewRectangle(), parentPosition, parentDirection, body.w, body.h))]
      ensures added ==> position == parentPosition && widthBox == body.w && heightBox == body.h
      ensures added ==> collisionRange >= body.w && collisionRange >= body.h
      ensures added ==> collisionRange == body.w || collisionRange == body.h
      ensures added ==> steps == old(steps) + [UpdatedHitBox]
    {
      if TANK_KEY in Keys(hitBoxes) {
        added := false;
        return;
      }
      ghost var before := hitBoxes;
      hitBoxes := hitBoxes + [(TANK_KEY, NewRectangle())];
      assert Keys(hitBoxes) == Keys(before) + [TANK_KEY];
      assert IndexOf(hitBoxes, TANK_KEY) == |before|;
      UpdateHitBox(parentPosition, parentDirection, body, update);
      added := true;
    }

    /**
     * Copies the parent's position and body size, sets the collision range to the larger side
     * and replaces the value under "Tank" (the key set is unchanged).
     */
    method UpdateHitBox(parentPosition: Coordinate, parentDirection: real, body: SpriteRect, update: RectangleUpdate)
      requires TANK_KEY in Keys(hitBoxes)
      modifies this
      ensures position == parentPosition && widthBox == body.w && heightBox == body.h
      ensures collisionRange >= heightBox && collisionRange >= widthBox
      ensures collisionRange == heightBox || collisionRange == widthBox
      ensures Keys(hitBoxes) == Keys(old(hitBoxes))
      ensures var i := IndexOf(old(hitBoxes), TANK_KEY);
        hitBoxes == old(hitBoxes)[i := (TANK_KEY, update(old(hitBoxes)[i].1, parentPosition, parentDirection, body.w, body.h))]
      ensures steps == old(steps) + [UpdatedHitBox]
    {
      position := parentPosition;
      heightBox := body.h;
      widthBox := body.w;
      if heightBox >= widthBox {
        collisionRange := heightBox;
      } else {
        collisionRange := widthBox;
      }
      var angle := parentDirection;
      var i := IndexOf(hitBoxes, TANK_KEY);
      var box := update(hitBoxes[i].1, position, angle, widthBox, heightBox);
      KeysReplace(hitBoxes, i, box);
      hitBoxes := hitBoxes[i := (TANK_KEY, box)];
      steps := steps + [UpdatedHitBox];
    }

    /** PhysicsComponent.CheckForCloseness: a read-only world query, recorded as a step. */
    method CheckForCloseness()
      modifies this`steps
      ensures steps == old(steps) + [CheckedCloseness]
    {
      steps := steps + [CheckedCloseness];
    }

    /** The per-tick update: the closeness query first, then the hitbox refresh. */
    method Update(parentPosition: Coordinate, parentDirection: real, body: SpriteRect, update: RectangleUpdate)
      requires Valid()
      modifies this
      ensures Valid()
      ensures steps == old(steps) + [CheckedCloseness, UpdatedHitBox]
      ensures position == parentPosition && widthBox == body.w && heightBox == body.h
      ensures collisionRange >= heightBox && collisionRange >= widthBox
      ensures collisionRange == heightBox || collisionRange == widthBox
      ensures hitBoxes == [(TANK_KEY, update(old(hitBoxes)[0].1, parentPosition, parentDirection, body.w, body.h))]
    {
      assert |hitBoxes| == 1 && hitBoxes[0].0 == TANK_KEY;
      assert IndexOf(hitBoxes, TANK_KEY) == 0;
      ghost var box := hitBoxes[0].1;
      CheckForCloseness();
      UpdateHitBox(parentPosition, parentDirection, body, update);
      assert hitBoxes == [(TANK_KEY, update(box, parentPosition, parentDirection, body.w, body.h))];
    }
  }
}
