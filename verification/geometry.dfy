/** Viewport geometry of a drag: pointer coordinates taken from a mouse or touch
    event, bounding boxes, and the test whether a box's centre lies over the pan. */
module Geometry {

  datatype Point = Point(x: real, y: real)

  /** An axis-aligned bounding box in viewport coordinates. */
  datatype Rect = Rect(left: real, top: real, width: real, height: real) {
    function Right(): real { left + width }
    function Bottom(): real { top + height }
    function Center(): Point { Point(left + width / 2.0, top + height / 2.0) }
  }

  /** The parts of a mouse or touch event the drag reads. A mouse event has no
      touch lists, which is the same as both lists being empty. */
  datatype PointerEvent = PointerEvent(touches: seq<Point>, changedTouches: seq<Point>, client: Point)

  /** The pointer position of an event: the first current touch, else the first
      changed touch, else the mouse position. That is, the first point of the
      three sources taken in that order of precedence. */
  function EventCoords(e: PointerEvent): (p: Point)
    ensures p == (e.touches + e.changedTouches + [e.client])[0]
  {
    if |e.touches| > 0 then e.touches[0]
    else if |e.changedTouches| > 0 then e.changedTouches[0]
    else e.client
  }

  /** The pan region as half-planes, free of division: between the top and the bottom
      edge, and strictly inside both slanted sides, each running from a top corner
      inset by a fifth of the width to the bottom corner on the same side. */
  predicate InsideTaper(c: Point, pan: Rect) {
    && pan.top <= c.y <= pan.Bottom()
    && 5.0 * pan.height * (c.x - pan.left) > pan.width * (pan.Bottom() - c.y)
    && 5.0 * pan.height * (pan.Right() - c.x) > pan.width * (pan.Bottom() - c.y)
  }

  /** The drop test on a centre point: reject outside the vertical span, otherwise
      interpolate the left and right boundaries between the inset top corners and the
      full-width bottom corners and accept strictly between them. A pan of zero height
      makes the progress 0/0, which is NaN, so every comparison after it is false. */
  function CenterOver(c: Point, pan: Rect): (b: bool)
    ensures b ==> pan.top <= c.y <= pan.Bottom()
    ensures pan.height > 0.0 ==> (b <==> InsideTaper(c, pan))
    ensures pan.height == 0.0 ==> !b
  {
    var p1 := Point(pan.left + pan.width * 0.2, pan.top);
    var p2 := Point(pan.left + pan.width * 0.8, pan.top);
    var p3 := Point(pan.Right(), pan.Bottom());
    var p4 := Point(pan.left, pan.Bottom());
    if c.y < p1.y || c.y > p3.y then false
    else if pan.height == 0.0 then false
    else
      var progress := (c.y - p1.y) / pan.height;
      var leftBoundary := p4.x + (p1.x - p4.x) * (1.0 - progress);
      var rightBoundary := p3.x + (p2.x - p3.x) * (1.0 - progress);
      SidesAsHalfPlanes(c, pan);
      c.x > leftBoundary && c.x < rightBoundary
  }

  /** The interpolated boundaries, multiplied through by the positive height, are the
      half-plane conditions of `InsideTaper`. */
  lemma SidesAsHalfPlanes(c: Point, pan: Rect)
    requires pan.height > 0.0
    ensures var q := 1.0 - (c.y - pan.top) / pan.height;
      && (c.x > pan.left + (pan.left + pan.width * 0.2 - pan.left) * q
          <==> 5.0 * pan.height * (c.x - pan.left) > pan.width * (pan.Bottom() - c.y))
      && (c.x < pan.Right() + (pan.left + pan.width * 0.8 - pan.Right()) * q
          <==> 5.0 * pan.height * (pan.Right() - c.x) > pan.width * (pan.Bottom() - c.y))
  {
    var h := pan.height;
    var q := 1.0 - (c.y - pan.top) / h;
    assert q * h == pan.Bottom() - c.y;
    var a := c.x - pan.left;
    var b := pan.width * 0.2 * q;
    assert a > b <==> a * h > b * h by {
      MulPositive(a, b, h);
    }
    var a' := pan.Right() - c.x;
    assert a' > b <==> a' * h > b * h by {
      MulPositive(a', b, h);
    }
  }

  /** Multiplying both sides by a positive number keeps a strict inequality. */
  lemma MulPositive(a: real, b: real, h: real)
    requires h > 0.0
    ensures a > b <==> a * h > b * h
  {
    if a > b {
      assert (a - b) * h > 0.0;
    } else {
      assert (b - a) * h >= 0.0;
    }
  }

  /** `isCenterOverTrapezoid`: whether the centre of the dragged box lies over the pan. */
  function OverTrapezoid(dragged: Rect, pan: Rect): (b: bool)
    ensures b ==> pan.top <= dragged.Center().y <= pan.Bottom()
    ensures pan.height > 0.0 ==> (b <==> InsideTaper(dragged.Center(), pan))
  {
    CenterOver(dragged.Center(), pan)
  }

  /** On the top edge the accepted stretch is the inset top side, open at both ends. */
  lemma TopEdge(c: Point, pan: Rect)
    requires pan.height > 0.0
    requires c.y == pan.top
    ensures CenterOver(c, pan) <==> pan.left + 0.2 * pan.width < c.x < pan.left + 0.8 * pan.width
  {
    var h := pan.height;
    MulPositive(c.x - pan.left, 0.2 * pan.width, 5.0 * h);
    MulPositive(pan.Right() - c.x, 0.2 * pan.width, 5.0 * h);
  }

  /** On the bottom edge the accepted stretch is the full width, open at both ends. */
  lemma BottomEdge(c: Point, pan: Rect)
    requires pan.height > 0.0
    requires c.y == pan.Bottom()
    ensures CenterOver(c, pan) <==> pan.left < c.x < pan.Right()
  {
    var h5 := 5.0 * pan.height;
    assert pan.width * (pan.Bottom() - c.y) == 0.0;
    assert h5 * (c.x - pan.left) == (c.x - pan.left) * h5;
    assert h5 * (pan.Right() - c.x) == (pan.Right() - c.x) * h5;
    MulPositive(c.x - pan.left, 0.0, h5);
    MulPositive(pan.Right() - c.x, 0.0, h5);
    assert InsideTaper(c, pan) <==> pan.left < c.x < pan.Right();
    assert CenterOver(c, pan) == InsideTaper(c, pan);
  }

  /** The region widens downwards: a centre accepted at some height stays accepted
      when moved straight down, as long as it stays above the bottom edge. */
  lemma WidensDownward(c: Point, y: real, pan: Rect)
    requires pan.width >= 0.0
    requires CenterOver(c, pan)
    requires c.y <= y <= pan.Bottom()
    ensures CenterOver(Point(c.x, y), pan)
  {
    assert pan.height > 0.0;
    assert InsideTaper(c, pan);
    var w := pan.width;
    var before := pan.Bottom() - c.y;
    var after := pan.Bottom() - y;
    MulNonNegative(w, before - after);
    assert w * after == w * before - w * (before - after);
    assert w * after <= w * before;
    assert InsideTaper(Point(c.x, y), pan);
  }

  lemma MulNonNegative(a: real, b: real)
    requires a >= 0.0 && b >= 0.0
    ensures a * b >= 0.0
  {
  }
}
