/** Positions, sprite rectangles and hitboxes, as values. */
module Geometry {

  import opened Wrappers

  datatype Coordinate = Coordinate(x: real, y: real)

  /** An SDL rectangle, such as a sprite's `Pos`. */
  datatype SpriteRect = SpriteRect(x: int, y: int, w: int, h: int)

  datatype HitBoxType = RECTANGLE | CIRCLE

  datatype HitBox = HitBox(boxType: HitBoxType, position: Coordinate, angle: real, width: int, height: int)

  /** `new HitBox { boxType = RECTANGLE }`: every other field at its default. */
  function NewRectangle(): HitBox {
    HitBox(RECTANGLE, Coordinate(0.0, 0.0), 0.0, 0, 0)
  }

  /** Helper.UpdateRectangleHitBox(box, position, angle, width, height), whose geometry is not modelled. */
  type RectangleUpdate = (HitBox, Coordinate, real, int, int) -> HitBox

  /**
   * Helper.HitBoxIntersection(a, b, ref point), whose geometry is not modelled:
   * Some(point) when the boxes intersect at `point`, None when they do not.
   */
  type Intersection = (HitBox, HitBox) -> Option<Coordinate>

  /** A `Dictionary<string, HitBox>` in enumeration order, with distinct keys. */
  type HitBoxEntries = seq<(string, HitBox)>

  function Keys(entries: HitBoxEntries): (ks: seq<string>)
    ensures |ks| == |entries|
    ensures forall i :: 0 <= i < |entries| ==> ks[i] == entries[i].0
  {
    if entries == [] then [] else Keys(entries[..|entries| - 1]) + [entries[|entries| - 1].0]
  }

  /** Replacing the value stored under a key keeps the keys, in order. */
  lemma KeysReplace(entries: HitBoxEntries, i: nat, box: HitBox)
    requires i < |entries|
    ensures Keys(entries[i := (entries[i].0, box)]) == Keys(entries)
  {
    var updated := entries[i := (entries[i].0, box)];
    assert forall j :: 0 <= j < |updated| ==> Keys(updated)[j] == Keys(entries)[j];
  }
}
