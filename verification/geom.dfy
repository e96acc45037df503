/** Points, bounding boxes, the endpoint tolerance, the line/arc entity with
    its endpoint-fitting test and in-place reversal, and the (xmin, ymin)
    sort order shared by entities and contours (dxfgeom.py). */
module Geom {

  /** Maximum distance along each axis between endpoints considered coincident. */
  const Delta: real := 0.005

  function Abs(x: real): real { if x < 0.0 then -x else x }
  function Min(a: real, b: real): real { if a <= b then a else b }
  function Max(a: real, b: real): real { if a >= b then a else b }

  datatype Point = Point(x: real, y: real)

  /** Two points coincide when both coordinate differences are strictly below Delta. */
  predicate Near(p: Point, q: Point) {
    Abs(p.x - q.x) < Delta && Abs(p.y - q.y) < Delta
  }

  lemma NearSymmetric(p: Point, q: Point)
    ensures Near(p, q) <==> Near(q, p)
  {
  }

  /** A bounding box in the (xmin, ymin, xmax, ymax) layout of getbb. */
  datatype Box = Box(xmin: real, ymin: real, xmax: real, ymax: real) {
    predicate WellFormed() { xmin <= xmax && ymin <= ymax }
    predicate Contains(p: Point) { xmin <= p.x <= xmax && ymin <= p.y <= ymax }
    /** This box covers the whole of `inner`. */
    predicate Encloses(inner: Box) {
      xmin <= inner.xmin && ymin <= inner.ymin && inner.xmax <= xmax && inner.ymax <= ymax
    }
  }

  /** The box Entity.__init__ computes from the two endpoints. */
  function EndpointBox(p: Point, q: Point): (r: Box)
    ensures r.WellFormed() && r.Contains(p) && r.Contains(q)
    ensures forall b: Box {:trigger b.Encloses(r)} :: b.Contains(p) && b.Contains(q) ==> b.Encloses(r)
  {
    Box(Min(p.x, q.x), Min(p.y, q.y), Max(p.x, q.x), Max(p.y, q.y))
  }

  /** merge_bb: the smallest box that contains both boxes. */
  function MergeBB(a: Box, b: Box): (r: Box)
    ensures r.Encloses(a) && r.Encloses(b)
    ensures r.xmin in {a.xmin, b.xmin} && r.ymin in {a.ymin, b.ymin}
    ensures r.xmax in {a.xmax, b.xmax} && r.ymax in {a.ymax, b.ymax}
    ensures a.WellFormed() && b.WellFormed() ==> r.WellFormed()
  {
    Box(Min(a.xmin, b.xmin), Min(a.ymin, b.ymin), Max(a.xmax, b.xmax), Max(a.ymax, b.ymax))
  }

  /** No box smaller than MergeBB(a, b) contains both a and b. */
  lemma MergeBBLeast(a: Box, b: Box, c: Box)
    requires c.Encloses(a) && c.Encloses(b)
    ensures c.Encloses(MergeBB(a, b))
  {
  }

  /** A point of either box is a point of the merged box. */
  lemma MergeBBKeepsPoints(a: Box, b: Box, p: Point)
    requires a.Contains(p) || b.Contains(p)
    ensures MergeBB(a, b).Contains(p)
  {
  }

  /** The two endpoints of an entity in their current order, and the swapped flag. */
  datatype Orient = Orient(start: Point, end: Point, swapped: bool) {
    /** What Entity.swap does to the endpoints and the flag. */
    function Flip(): Orient { Orient(end, start, !swapped) }

    /** Either endpoint lies within Delta of p. */
    predicate Touches(p: Point) { Near(p, start) || Near(p, end) }
  }

  /** Swapping twice restores the original orientation. */
  lemma FlipInvolution(o: Orient)
    ensures o.Flip().Flip() == o
  {
  }

  /** Reversal does not change whether an entity touches a point. */
  lemma FlipKeepsTouches(o: Orient, p: Point)
    ensures o.Flip().Touches(p) <==> o.Touches(p)
  {
  }

  /** Some endpoint of a lies within Delta of some endpoint of b. */
  predicate Meets(a: Orient, b: Orient) {
    b.Touches(a.start) || b.Touches(a.end)
  }

  lemma MeetsSymmetric(a: Orient, b: Orient)
    ensures Meets(a, b) <==> Meets(b, a)
  {
  }

  lemma MeetsFlip(a: Orient, b: Orient)
    ensures Meets(a.Flip(), b) <==> Meets(a, b)
    ensures Meets(a, b.Flip()) <==> Meets(a, b)
  {
  }

  /** The concrete kind of an entity: what isinstance tells apart in find_contours. */
  datatype Kind = LineKind | ArcKind

  /** A DXF line or arc. The endpoints and the swapped flag change in place;
      the bounding box is fixed when the entity is created. */
  class Entity {
    const kind: Kind
    var x1: real
    var y1: real
    var x2: real
    var y2: real
    const box: Box
    var sw: bool

    /** The bounding box contains both endpoints. */
    ghost predicate Valid()
      reads this
    {
      box.WellFormed() && box.Contains(StartPoint()) && box.Contains(EndPoint())
    }

    /** Line(x1, y1, x2, y2): the box is spanned by the two endpoints. */
    constructor Line(x1: real, y1: real, x2: real, y2: real)
      ensures Valid() && kind == LineKind && !sw
      ensures StartPoint() == Point(x1, y1) && EndPoint() == Point(x2, y2)
      ensures box == EndpointBox(Point(x1, y1), Point(x2, y2))
    {
      kind := LineKind;
      this.x1, this.y1, this.x2, this.y2 := x1, y1, x2, y2;
      box := EndpointBox(Point(x1, y1), Point(x2, y2));
      sw := false;
    }

    /** An arc whose endpoints and refined bounding box are given; the refined
        box only ever grows the endpoint box, so it contains both endpoints. */
    constructor Arc(x1: real, y1: real, x2: real, y2: real, box: Box)
      requires box.Encloses(EndpointBox(Point(x1, y1), Point(x2, y2)))
      ensures Valid() && kind == ArcKind && !sw
      ensures StartPoint() == Point(x1, y1) && EndPoint() == Point(x2, y2)
      ensures this.box == box
    {
      kind := ArcKind;
      this.x1, this.y1, this.x2, this.y2 := x1, y1, x2, y2;
      this.box := box;
      sw := false;
    }

    function StartPoint(): Point reads this { Point(x1, y1) }
    function EndPoint(): Point reads this { Point(x2, y2) }
    function GetBB(): Box reads this { box }
    function Orientation(): Orient reads this { Orient(StartPoint(), EndPoint(), sw) }

    /** End `index` of this entity: 1 is the start, anything else the end. */
    function EndAt(index: int): Point
      reads this
    {
      if index == 1 then StartPoint() else EndPoint()
    }

    /** fits: which end of `other` is left free when it is joined to end
        `index` of this entity, or 0 when it does not touch that end. The
        start of `other` is tried first. */
    function Fits(index: int, other: Entity): (r: int)
      reads this, other
      ensures 0 <= r <= 2
    {
      if index == 1 then
        if Abs(x1 - other.x1) < Delta && Abs(y1 - other.y1) < Delta then 2
        else if Abs(x1 - other.x2) < Delta && Abs(y1 - other.y2) < Delta then 1
        else 0
      else if index == 2 then
        if Abs(x2 - other.x1) < Delta && Abs(y2 - other.y1) < Delta then 2
        else if Abs(x2 - other.x2) < Delta && Abs(y2 - other.y2) < Delta then 1
        else 0
      else 0
    }

    /** What fits answers: 2 when the start of `other` is within Delta of end
        `index`, else 1 when its end is, else 0; and 0 for any index but 1 and 2. */
    lemma FitsMeaning(index: int, other: Entity)
      ensures Fits(index, other) == 2 <==> (index == 1 || index == 2) && Near(EndAt(index), other.StartPoint())
      ensures Fits(index, other) == 1 <==> (index == 1 || index == 2) && !Near(EndAt(index), other.StartPoint())
                                                                     && Near(EndAt(index), other.EndPoint())
      ensures Fits(index, other) == 0 <==> !((index == 1 || index == 2) && other.Orientation().Touches(EndAt(index)))
    {
    }

    /** swap: exchange the endpoints and toggle the swapped flag. */
    method Swap()
      modifies this
      ensures Orientation() == old(Orientation()).Flip()
      ensures GetBB() == old(GetBB()) && Valid() == old(Valid())
    {
      x1, x2 := x2, x1;
      y1, y2 := y2, y1;
      sw := !sw;
    }
  }

  /** getbb, startpoint and endpoint of a valid entity: the box holds both
      endpoints, and they are the ends fits compares, in either direction. */
  lemma BoxHoldsEnds(e: Entity)
    requires e.Valid()
    ensures e.GetBB().Contains(e.StartPoint()) && e.GetBB().Contains(e.EndPoint())
    ensures e.StartPoint() == e.EndAt(1) && e.EndPoint() == e.EndAt(2)
  {
  }

  /** __lt__: order on the (xmin, ymin) corner, xmin first. */
  function Less(a: Box, b: Box): (r: bool)
    ensures r <==> a.xmin < b.xmin || (a.xmin == b.xmin && a.ymin < b.ymin)
  {
    if a.xmin == b.xmin then a.ymin < b.ymin else a.xmin < b.xmin
  }

  /** __gt__: the mirror of Less. */
  function Greater(a: Box, b: Box): (r: bool)
    ensures r <==> a.xmin > b.xmin || (a.xmin == b.xmin && a.ymin > b.ymin)
  {
    if a.xmin == b.xmin then a.ymin > b.ymin else a.xmin > b.xmin
  }

  /** __eq__: equal (xmin, ymin) corners; xmax and ymax are not compared. */
  function Equal(a: Box, b: Box): (r: bool)
    ensures r <==> !Less(a, b) && !Less(b, a)
  {
    a.xmin == b.xmin && a.ymin == b.ymin
  }

  lemma GreaterIsConverse(a: Box, b: Box)
    ensures Greater(a, b) == Less(b, a)
  {
  }

  /** Less is a strict order: irreflexive and transitive. */
  lemma LessStrictOrder(a: Box, b: Box, c: Box)
    ensures !Less(a, a)
    ensures Less(a, b) && Less(b, c) ==> Less(a, c)
  {
  }

  /** Exactly one of a < b, a == b, b < a holds. */
  lemma LessTrichotomy(a: Box, b: Box)
    ensures Less(a, b) || Equal(a, b) || Less(b, a)
    ensures !(Less(a, b) && Equal(a, b)) && !(Less(a, b) && Less(b, a)) && !(Equal(a, b) && Less(b, a))
  {
  }

  /** Boxes that differ only in xmax and ymax compare equal. */
  lemma EqualIgnoresMaxima(a: Box, xmax: real, ymax: real)
    ensures Equal(a, Box(a.xmin, a.ymin, xmax, ymax))
  {
  }

  /** Line.length without its final square root, as written: the y
      difference subtracts x1 where y1 is meant. */
  function LengthSquaredAsWritten(x1: real, y1: real, x2: real, y2: real): (r: real)
    ensures r >= 0.0
    ensures x1 == y1 ==> r == LengthSquared(Point(x1, y1), Point(x2, y2))
  {
    var dx, dy := x2 - x1, y2 - x1;
    assert dx * dx >= 0.0 && dy * dy >= 0.0;
    dx * dx + dy * dy
  }

  /** As written, a line's length depends on its direction: from (0, 0) to
      (0, 1) it is 1, and after swap, from (0, 1) to (0, 0), it is 0. */
  lemma LengthAsWrittenDependsOnDirection()
    ensures LengthSquaredAsWritten(0.0, 0.0, 0.0, 1.0) == 1.0
    ensures LengthSquaredAsWritten(0.0, 1.0, 0.0, 0.0) == 0.0
  {
  }

  /** The squared distance between the endpoints, which the length is meant
      to be the square root of. */
  function LengthSquared(p: Point, q: Point): (r: real)
    ensures r >= 0.0
  {
    var dx, dy := q.x - p.x, q.y - p.y;
    assert dx * dx >= 0.0 && dy * dy >= 0.0;
    dx * dx + dy * dy
  }

  /** The corrected length does not depend on the direction of the line. */
  lemma LengthSquaredSymmetric(p: Point, q: Point)
    ensures LengthSquared(p, q) == LengthSquared(q, p)
  {
    var dx, dy := q.x - p.x, q.y - p.y;
    assert (-dx) * (-dx) == dx * dx && (-dy) * (-dy) == dy * dy;
  }
}
