/**
 * The point sequence of the LCD driver's Bresenham line: the loop state
 * (x, y, err) and the step that updates it, and the sequence of points
 * the loop visits from (x0, y0) until it reaches (x1, y1).
 */
module LineWalk {
  import opened CArith

  datatype Point = Point(x: int, y: int)

  /** The loop's mutable state: the current point and the error term. */
  datatype Walk = Walk(x: int, y: int, err: int)

  /** The line's fixed parameters, computed once from the endpoints. */
  datatype Line = Line(x0: int, y0: int, x1: int, y1: int, dx: int, dy: int, sx: int, sy: int)

  function LineOf(x0: int, y0: int, x1: int, y1: int): (l: Line)
    ensures l.dx >= 0 && l.dy >= 0
    ensures l.sx == 1 || l.sx == -1
    ensures l.sy == 1 || l.sy == -1
  {
    Line(x0, y0, x1, y1, AbsInt(x1 - x0), AbsInt(y1 - y0),
         if x0 < x1 then 1 else -1, if y0 < y1 then 1 else -1)
  }

  function Start(l: Line): Walk {
    Walk(l.x0, l.y0, l.dx - l.dy)
  }

  /** One pass of the loop body after the point is drawn and the end test fails. */
  function Step(l: Line, w: Walk): Walk {
    var e2 := 2 * w.err;
    var err1 := if e2 > -l.dy then w.err - l.dy else w.err;
    var x := if e2 > -l.dy then w.x + l.sx else w.x;
    var err2 := if e2 < l.dx then err1 + l.dx else err1;
    var y := if e2 < l.dx then w.y + l.sy else w.y;
    Walk(x, y, err2)
  }

  predicate AtEnd(l: Line, w: Walk) {
    w.x == l.x1 && w.y == l.y1
  }

  /** How far `v` has moved from `v0` in direction `s`. */
  function Advance(v: int, v0: int, s: int): int {
    if s == 1 then v - v0 else v0 - v
  }

  /** `a * n` by repeated addition, which keeps the walk's invariant free of nonlinear terms. */
  function Times(a: int, n: nat): int
  {
    if n == 0 then 0 else Times(a, n - 1) + a
  }

  lemma {:induction false} TimesIsProduct(a: int, n: nat)
    ensures Times(a, n) == a * n
  {
    if n > 0 {
      TimesIsProduct(a, n - 1);
    }
  }

  /**
   * What holds of every state the loop reaches: it has advanced `i`
   * columns and `j` rows towards the far endpoint, never past it, and
   * the error term is dx (1 + j) - dy (1 + i).
   */
  ghost predicate OnLine(l: Line, w: Walk) {
    l == LineOf(l.x0, l.y0, l.x1, l.y1) &&
    var i := Advance(w.x, l.x0, l.sx);
    var j := Advance(w.y, l.y0, l.sy);
    0 <= i <= l.dx && 0 <= j <= l.dy &&
    w.err == Times(l.dx, 1 + j) - Times(l.dy, 1 + i)
  }

  /** Steps left to the far endpoint. */
  function Remaining(l: Line, w: Walk): int {
    (l.dx - Advance(w.x, l.x0, l.sx)) + (l.dy - Advance(w.y, l.y0, l.sy))
  }

  lemma StartOnLine(x0: int, y0: int, x1: int, y1: int)
    ensures OnLine(LineOf(x0, y0, x1, y1), Start(LineOf(x0, y0, x1, y1)))
  {
  }

  /** The end test fires exactly when both coordinates have advanced all the way. */
  lemma AtEndIsComplete(l: Line, w: Walk)
    requires OnLine(l, w)
    ensures AtEnd(l, w) <==> Remaining(l, w) == 0
  {
  }

  /** At the last column with rows still to go, the doubled error is at most -dy: x stays. */
  lemma LastColumnHoldsX(dx: int, dy: int, i: nat, j: nat)
    requires j < dy && i == dx
    ensures 2 * (Times(dx, 1 + j) - Times(dy, 1 + i)) <= -dy
  {
    TimesIsProduct(dx, 1 + j);
    TimesIsProduct(dy, 1 + i);
    MulMono(dx, 1 + j, dy);
    assert dy * (1 + i) == dy + dy * dx;
  }

  /** At the last row with columns still to go, the doubled error is at least dx: y stays. */
  lemma LastRowHoldsY(dx: int, dy: int, i: nat, j: nat)
    requires i < dx && j == dy
    ensures 2 * (Times(dx, 1 + j) - Times(dy, 1 + i)) >= dx
  {
    TimesIsProduct(dx, 1 + j);
    TimesIsProduct(dy, 1 + i);
    MulMono(dy, 1 + i, dx);
    assert dx * (1 + j) == dx + dx * dy;
  }

  lemma MulMono(a: int, b: int, c: int)
    requires 0 <= a && b <= c
    ensures a * b <= a * c
  {
    assert a * c - a * b == a * (c - b);
  }

  /**
   * A step from a state short of the end moves each coordinate by at
   * most one towards the far endpoint, never past it, and moves at
   * least one of them.
   */
  lemma StepKeepsOnLine(l: Line, w: Walk)
    requires OnLine(l, w) && !AtEnd(l, w)
    ensures OnLine(l, Step(l, w))
    ensures 0 <= Remaining(l, Step(l, w)) < Remaining(l, w)
    ensures AbsInt(Step(l, w).x - w.x) <= 1 && AbsInt(Step(l, w).y - w.y) <= 1
  {
    var i := Advance(w.x, l.x0, l.sx);
    var j := Advance(w.y, l.y0, l.sy);
    if i == l.dx {
      LastColumnHoldsX(l.dx, l.dy, i, j);
    }
    if j == l.dy {
      LastRowHoldsY(l.dx, l.dy, i, j);
    }
  }

  /** The points the loop draws from state `w` on, ending with the far endpoint. */
  function PointsFrom(l: Line, w: Walk): seq<Point>
    requires OnLine(l, w)
    decreases Remaining(l, w)
  {
    if AtEnd(l, w) then [Point(w.x, w.y)]
    else
      StepKeepsOnLine(l, w);
      [Point(w.x, w.y)] + PointsFrom(l, Step(l, w))
  }

  /** The walk from a state short of the end: its point, then the walk from the next state. */
  lemma PointsFromStep(l: Line, w: Walk)
    requires OnLine(l, w) && !AtEnd(l, w)
    ensures OnLine(l, Step(l, w)) && Remaining(l, Step(l, w)) < Remaining(l, w)
    ensures PointsFrom(l, w) == [Point(w.x, w.y)] + PointsFrom(l, Step(l, w))
  {
    StepKeepsOnLine(l, w);
  }

  /** The walk from the end state is the end point alone. */
  lemma PointsFromEnd(l: Line, w: Walk)
    requires OnLine(l, w) && AtEnd(l, w)
    ensures PointsFrom(l, w) == [Point(w.x, w.y)]
  {
  }

  /** Moving past a point that is not the last: it joins the points already visited. */
  lemma VisitNext(l: Line, w: Walk, visited: seq<Point>, all: seq<Point>)
    requires OnLine(l, w) && !AtEnd(l, w)
    requires visited + PointsFrom(l, w) == all
    ensures OnLine(l, Step(l, w)) && Remaining(l, Step(l, w)) < Remaining(l, w)
    ensures (visited + [Point(w.x, w.y)]) + PointsFrom(l, Step(l, w)) == all
  {
    PointsFromStep(l, w);
  }

  /** The last point completes the walk. */
  lemma VisitLast(l: Line, w: Walk, visited: seq<Point>, all: seq<Point>)
    requires OnLine(l, w) && AtEnd(l, w)
    requires visited + PointsFrom(l, w) == all
    ensures visited + [Point(w.x, w.y)] == all
  {
  }

  /** The points `st7735_draw_line` visits, in order. */
  function LinePoints(x0: int, y0: int, x1: int, y1: int): seq<Point>
  {
    StartOnLine(x0, y0, x1, y1);
    PointsFrom(LineOf(x0, y0, x1, y1), Start(LineOf(x0, y0, x1, y1)))
  }

  /** Consecutive points are 8-neighbours: they differ by at most one in each coordinate. */
  ghost predicate Connected(ps: seq<Point>) {
    forall k :: 0 <= k < |ps| - 1 ==>
      AbsInt(ps[k + 1].x - ps[k].x) <= 1 && AbsInt(ps[k + 1].y - ps[k].y) <= 1
  }

  /** Every point lies in the rectangle spanned by the endpoints. */
  ghost predicate Boxed(l: Line, ps: seq<Point>) {
    forall k :: 0 <= k < |ps| ==>
      0 <= Advance(ps[k].x, l.x0, l.sx) <= l.dx && 0 <= Advance(ps[k].y, l.y0, l.sy) <= l.dy
  }

  lemma {:induction false} PointsFromEnds(l: Line, w: Walk)
    requires OnLine(l, w)
    ensures |PointsFrom(l, w)| >= 1
    ensures PointsFrom(l, w)[0] == Point(w.x, w.y)
    ensures PointsFrom(l, w)[|PointsFrom(l, w)| - 1] == Point(l.x1, l.y1)
    decreases Remaining(l, w)
  {
    if !AtEnd(l, w) {
      StepKeepsOnLine(l, w);
      PointsFromEnds(l, Step(l, w));
    }
  }

  lemma {:induction false} PointsFromConnected(l: Line, w: Walk)
    requires OnLine(l, w)
    ensures Connected(PointsFrom(l, w))
    decreases Remaining(l, w)
  {
    if !AtEnd(l, w) {
      StepKeepsOnLine(l, w);
      PointsFromConnected(l, Step(l, w));
      PointsFromEnds(l, Step(l, w));
      PointsFromStep(l, w);
      ConnectedCons(Point(w.x, w.y), PointsFrom(l, Step(l, w)));
    }
  }

  /** A point next to the first of a connected run extends it. */
  lemma ConnectedCons(p: Point, rest: seq<Point>)
    requires Connected(rest) && rest != []
    requires AbsInt(rest[0].x - p.x) <= 1 && AbsInt(rest[0].y - p.y) <= 1
    ensures Connected([p] + rest)
  {
    var ps := [p] + rest;
    forall k | 0 <= k < |ps| - 1
      ensures AbsInt(ps[k + 1].x - ps[k].x) <= 1 && AbsInt(ps[k + 1].y - ps[k].y) <= 1
    {
      if k > 0 {
        assert ps[k] == rest[k - 1] && ps[k + 1] == rest[k];
      }
    }
  }

  lemma {:induction false} PointsFromBoxed(l: Line, w: Walk)
    requires OnLine(l, w)
    ensures Boxed(l, PointsFrom(l, w))
    decreases Remaining(l, w)
  {
    if !AtEnd(l, w) {
      StepKeepsOnLine(l, w);
      PointsFromBoxed(l, Step(l, w));
      PointsFromStep(l, w);
      BoxedCons(l, Point(w.x, w.y), PointsFrom(l, Step(l, w)));
    }
  }

  /** A point inside the rectangle in front of points inside it. */
  lemma BoxedCons(l: Line, p: Point, rest: seq<Point>)
    requires Boxed(l, rest)
    requires 0 <= Advance(p.x, l.x0, l.sx) <= l.dx && 0 <= Advance(p.y, l.y0, l.sy) <= l.dy
    ensures Boxed(l, [p] + rest)
  {
    var ps := [p] + rest;
    assert forall k :: 1 <= k < |ps| ==> ps[k] == rest[k - 1];
  }

  /**
   * The line starts at (x0, y0), ends at (x1, y1), has no gaps and stays
   * inside the rectangle its endpoints span.
   */
  lemma LineShape(x0: int, y0: int, x1: int, y1: int)
    ensures |LinePoints(x0, y0, x1, y1)| >= 1
    ensures LinePoints(x0, y0, x1, y1)[0] == Point(x0, y0)
    ensures LinePoints(x0, y0, x1, y1)[|LinePoints(x0, y0, x1, y1)| - 1] == Point(x1, y1)
    ensures Connected(LinePoints(x0, y0, x1, y1))
    ensures Boxed(LineOf(x0, y0, x1, y1), LinePoints(x0, y0, x1, y1))
  {
    StartOnLine(x0, y0, x1, y1);
    PointsFromEnds(LineOf(x0, y0, x1, y1), Start(LineOf(x0, y0, x1, y1)));
    PointsFromConnected(LineOf(x0, y0, x1, y1), Start(LineOf(x0, y0, x1, y1)));
    PointsFromBoxed(LineOf(x0, y0, x1, y1), Start(LineOf(x0, y0, x1, y1)));
  }
}
