/** The two raylib value types the game uses (Vector2, Rectangle) and the one
    raylib query its update logic calls, CheckCollisionRecs.  raylib itself is
    not part of this model: the collision test is ASSUMED to be the strict
    overlap test of two axis-aligned boxes.  Coordinates are C floats in the
    game; they are modelled as exact reals (no rounding). */
module Raylib {

  datatype Vector2 = Vector2(x: real, y: real)

  datatype Rectangle = Rectangle(x: real, y: real, width: real, height: real)

  /** Two boxes collide when they overlap on both axes; boxes that only
      touch along an edge do not collide. */
  predicate CheckCollisionRecs(a: Rectangle, b: Rectangle)
  {
    a.x < b.x + b.width && b.x < a.x + a.width &&
    a.y < b.y + b.height && b.y < a.y + a.height
  }

  /** The test does not depend on the order of its arguments, and two boxes
      that only share an edge do not collide. */
  lemma CollisionLaws(a: Rectangle, b: Rectangle)
    ensures CheckCollisionRecs(a, b) <==> CheckCollisionRecs(b, a)
    ensures a.x + a.width == b.x ==> !CheckCollisionRecs(a, b)
    ensures a.y + a.height == b.y ==> !CheckCollisionRecs(a, b)
  {
  }
}
