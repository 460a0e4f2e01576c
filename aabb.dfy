/** Axis-aligned bounding boxes and the minimum-translation-vector collision
    test that separates the player's box from a platform's box. */
module Aabb {

  /** A box by its top-left corner and its extent (y grows downwards). */
  datatype Rect = Rect(x: real, y: real, width: real, height: real)

  /** Which side of the player the obstacle was found on; NoCollision is the
      source's `null`. */
  datatype Direction = NoCollision | Left | Right | Top | Bottom
  {
    predicate Horizontal() { this == Left || this == Right }
    predicate Vertical() { this == Top || this == Bottom }
  }

  /** What a collision test returns and where it leaves the player's box. */
  datatype Resolution = Resolution(direction: Direction, player: Rect)

  function Abs(a: real): real { if a < 0.0 then -a else a }

  function Min(a: real, b: real): real { if a <= b then a else b }

  /** Strict overlap, written as four half-plane tests. */
  predicate Overlaps(a: Rect, b: Rect) {
    && a.x < b.x + b.width
    && a.x + a.width > b.x
    && a.y < b.y + b.height
    && a.y + a.height > b.y
  }

  /** Horizontal distance from the obstacle's centre to the player's centre. */
  function VectorX(p: Rect, o: Rect): real {
    (p.x + p.width / 2.0) - (o.x + o.width / 2.0)
  }

  /** Vertical distance from the obstacle's centre to the player's centre. */
  function VectorY(p: Rect, o: Rect): real {
    (p.y + p.height / 2.0) - (o.y + o.height / 2.0)
  }

  function HalfWidths(p: Rect, o: Rect): real { p.width / 2.0 + o.width / 2.0 }

  function HalfHeights(p: Rect, o: Rect): real { p.height / 2.0 + o.height / 2.0 }

  /** Penetration depth along each axis. */
  function OffsetX(p: Rect, o: Rect): real { HalfWidths(p, o) - Abs(VectorX(p, o)) }

  function OffsetY(p: Rect, o: Rect): real { HalfHeights(p, o) - Abs(VectorY(p, o)) }

  /** The collision test: on overlap, push the player's box out along the
      axis of smaller penetration (ties go vertical) and report the side the
      obstacle is on; otherwise report NoCollision and leave the box alone. */
  function Check(p: Rect, o: Rect): (r: Resolution)
    // the centre test finds exactly the strict overlaps
    ensures r.direction == NoCollision <==> !Overlaps(p, o)
    ensures r.direction == NoCollision ==> r.player == p
    // the player's size is never changed
    ensures r.player.width == p.width && r.player.height == p.height
    // exactly one axis moves: the one with strictly smaller penetration, else vertical
    ensures r.direction.Horizontal() <==> Overlaps(p, o) && OffsetX(p, o) < OffsetY(p, o)
    ensures r.direction.Horizontal() ==> r.player.y == p.y && r.player.x != p.x
    ensures r.direction.Vertical() ==> r.player.x == p.x && r.player.y != p.y
    // the push is the minimum translation
    ensures Overlaps(p, o) ==>
              Abs(r.player.x - p.x) + Abs(r.player.y - p.y) == Min(OffsetX(p, o), OffsetY(p, o))
    // the side is the one the obstacle's centre lies on; the push goes away from it
    ensures r.direction.Horizontal() ==> (r.direction == Left <==> VectorX(p, o) > 0.0)
    ensures r.direction.Vertical() ==> (r.direction == Top <==> VectorY(p, o) > 0.0)
    ensures r.direction == Left ==> r.player.x > p.x
    ensures r.direction == Right ==> r.player.x < p.x
    ensures r.direction == Top ==> r.player.y > p.y
    ensures r.direction == Bottom ==> r.player.y < p.y
    // afterwards the boxes are separated
    ensures !Overlaps(r.player, o)
  {
    var vectorX := VectorX(p, o);
    var vectorY := VectorY(p, o);
    var halfWidths := HalfWidths(p, o);
    var halfHeights := HalfHeights(p, o);
    if Abs(vectorX) < halfWidths && Abs(vectorY) < halfHeights then
      var offsetX := halfWidths - Abs(vectorX);
      var offsetY := halfHeights - Abs(vectorY);
      if offsetX < offsetY then
        if vectorX > 0.0 then Resolution(Left, p.(x := p.x + offsetX))
        else Resolution(Right, p.(x := p.x - offsetX))
      else
        if vectorY > 0.0 then Resolution(Top, p.(y := p.y + offsetY))
        else Resolution(Bottom, p.(y := p.y - offsetY))
    else
      Resolution(NoCollision, p)
  }

  /** The centre-distance test is the four half-plane test in other terms. */
  lemma CentreTestIsEdgeTest(p: Rect, o: Rect)
    ensures Overlaps(p, o) <==>
              Abs(VectorX(p, o)) < HalfWidths(p, o) && Abs(VectorY(p, o)) < HalfHeights(p, o)
  {
  }

  /** Testing the resolved box against the same obstacle finds nothing. */
  lemma ResolvedPairIsApart(p: Rect, o: Rect)
    ensures var r := Check(p, o);
            Check(r.player, o) == Resolution(NoCollision, r.player)
  {
  }

  /** After a push, the centres are exactly the half-extent sum apart along
      the resolved axis: the boxes touch. */
  lemma ResolvedAxisTouches(p: Rect, o: Rect)
    requires Overlaps(p, o)
    ensures var r := Check(p, o);
            r.direction.Horizontal() ==> Abs(VectorX(r.player, o)) == HalfWidths(p, o)
    ensures var r := Check(p, o);
            r.direction.Vertical() ==> Abs(VectorY(r.player, o)) == HalfHeights(p, o)
  {
  }

  /** Coinciding centres resolve to Right or Bottom (the push goes left or up). */
  lemma ZeroOffsetResolution(p: Rect, o: Rect)
    requires Overlaps(p, o)
    ensures VectorX(p, o) == 0.0 && Check(p, o).direction.Horizontal() ==> Check(p, o).direction == Right
    ensures VectorY(p, o) == 0.0 && Check(p, o).direction.Vertical() ==> Check(p, o).direction == Bottom
  {
  }
}
