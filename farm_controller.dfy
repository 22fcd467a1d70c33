/** `farm_controller.py`, the account-farming tool: the human-like swipe
    built on a cubic Bézier curve, the image-gallery browsing loop and the
    adb command it runs. Random draws enter as values in the ranges they are
    drawn from; the device and the clock are not modelled. */
module FarmController {
  import opened Values
  import opened Text
  import AdbHelper
  import LS = ListingScript

  datatype Point = Point(x: real, y: real)

  // ---------------------------------------------------------------------
  // The Bézier curve

  function Cube(a: real): real
  {
    a * a * a
  }

  /** One coordinate of the cubic Bézier formula of `bezier_curve` at
      parameter `t`. */
  function Bezier(a: real, b: real, c: real, d: real, t: real): real
  {
    Cube(1.0 - t) * a + 3.0 * (1.0 - t) * (1.0 - t) * t * b + 3.0 * (1.0 - t) * t * t * c + Cube(t) * d
  }

  function BezierAt(p0: Point, p1: Point, p2: Point, p3: Point, t: real): Point
  {
    Point(Bezier(p0.x, p1.x, p2.x, p3.x, t), Bezier(p0.y, p1.y, p2.y, p3.y, t))
  }

  /** The curve starts at the first point and ends at the last. */
  lemma BezierEnds(a: real, b: real, c: real, d: real)
    ensures Bezier(a, b, c, d, 0.0) == a && Bezier(a, b, c, d, 1.0) == d
  {
  }

  lemma MulNonneg(a: real, b: real)
    requires a >= 0.0 && b >= 0.0
    ensures a * b >= 0.0
  {
  }

  /** The four weights of the formula are the terms of `((1 - t) + t)^3`:
      for `t` in `[0, 1]` they are not negative and add up to 1. */
  lemma BezierWeights(t: real)
    requires 0.0 <= t <= 1.0
    ensures var s := 1.0 - t;
      Cube(s) >= 0.0 && 3.0 * s * s * t >= 0.0 && 3.0 * s * t * t >= 0.0 && Cube(t) >= 0.0 &&
      Cube(s) + 3.0 * s * s * t + 3.0 * s * t * t + Cube(t) == 1.0
  {
    var s := 1.0 - t;
    MulNonneg(s, s);
    MulNonneg(s * s, s);
    MulNonneg(s * s, t);
    MulNonneg(s, t);
    MulNonneg(s * t, t);
    MulNonneg(t, t);
    MulNonneg(t * t, t);
    assert (s + t) * (s + t) * (s + t) == Cube(s) + 3.0 * s * s * t + 3.0 * s * t * t + Cube(t);
  }

  lemma WeightedBounds(w: real, a: real, lo: real, hi: real)
    requires w >= 0.0 && lo <= a <= hi
    ensures w * lo <= w * a <= w * hi
  {
    MulNonneg(w, a - lo);
    MulNonneg(w, hi - a);
  }

  /** A combination with non-negative weights adding up to 1 lies between
      the least and the greatest of the combined values. */
  lemma ConvexBounds(w0: real, w1: real, w2: real, w3: real, a: real, b: real, c: real, d: real, lo: real, hi: real)
    requires w0 >= 0.0 && w1 >= 0.0 && w2 >= 0.0 && w3 >= 0.0 && w0 + w1 + w2 + w3 == 1.0
    requires lo <= a <= hi && lo <= b <= hi && lo <= c <= hi && lo <= d <= hi
    ensures lo <= w0 * a + w1 * b + w2 * c + w3 * d <= hi
  {
    assert w0 * lo <= w0 * a <= w0 * hi by { WeightedBounds(w0, a, lo, hi); }
    assert w1 * lo <= w1 * b <= w1 * hi by { WeightedBounds(w1, b, lo, hi); }
    assert w2 * lo <= w2 * c <= w2 * hi by { WeightedBounds(w2, c, lo, hi); }
    assert w3 * lo <= w3 * d <= w3 * hi by { WeightedBounds(w3, d, lo, hi); }
    assert w0 * lo + w1 * lo + w2 * lo + w3 * lo == lo by { SumOne(w0, w1, w2, w3, lo); }
    assert w0 * hi + w1 * hi + w2 * hi + w3 * hi == hi by { SumOne(w0, w1, w2, w3, hi); }
    AddBounds(w0 * lo, w1 * lo, w2 * lo, w3 * lo, w0 * a, w1 * b, w2 * c, w3 * d, w0 * hi, w1 * hi, w2 * hi, w3 * hi);
  }

  lemma SumOne(w0: real, w1: real, w2: real, w3: real, x: real)
    requires w0 + w1 + w2 + w3 == 1.0
    ensures w0 * x + w1 * x + w2 * x + w3 * x == x
  {
    assert w3 == 1.0 - w0 - w1 - w2;
    assert w3 * x == (1.0 - w0 - w1 - w2) * x == x - w0 * x - w1 * x - w2 * x;
  }

  /** Bounds add up; stated on plain values so that the solver sees no
      products. */
  lemma AddBounds(l0: real, l1: real, l2: real, l3: real, p0: real, p1: real, p2: real, p3: real,
                  h0: real, h1: real, h2: real, h3: real)
    requires l0 <= p0 <= h0 && l1 <= p1 <= h1 && l2 <= p2 <= h2 && l3 <= p3 <= h3
    ensures l0 + l1 + l2 + l3 <= p0 + p1 + p2 + p3 <= h0 + h1 + h2 + h3
  {
  }

  /** On `[0, 1]` the curve stays within the range of its four points: a
      swipe never leaves the box around its start, end and control
      points. */
  lemma BezierInRange(a: real, b: real, c: real, d: real, t: real, lo: real, hi: real)
    requires 0.0 <= t <= 1.0
    requires lo <= a <= hi && lo <= b <= hi && lo <= c <= hi && lo <= d <= hi
    ensures lo <= Bezier(a, b, c, d, t) <= hi
  {
    var s := 1.0 - t;
    BezierWeights(t);
    ConvexBounds(Cube(s), 3.0 * s * s * t, 3.0 * s * t * t, Cube(t), a, b, c, d, lo, hi);
  }

  /** `bezier_curve(p0, p1, p2, p3, num_points)`: the curve sampled at
      `i / num_points` for `i` in `range(num_points + 1)`. A count of 0
      divides by zero. */
  method BezierCurve(p0: Point, p1: Point, p2: Point, p3: Point, numPoints: int) returns (points: seq<Point>)
    requires numPoints != 0
    ensures |points| == if numPoints >= 0 then numPoints + 1 else 0
    ensures forall i :: 0 <= i < |points| ==> points[i] == BezierAt(p0, p1, p2, p3, i as real / numPoints as real)
    ensures numPoints > 0 ==> points[0] == p0 && points[numPoints] == p3
  {
    points := [];
    var i := 0;
    while i < numPoints + 1
      invariant 0 <= i && (numPoints >= 0 ==> i <= numPoints + 1) && |points| == i
      invariant numPoints < 0 ==> i == 0
      invariant forall k :: 0 <= k < i ==> points[k] == BezierAt(p0, p1, p2, p3, k as real / numPoints as real)
    {
      var t := i as real / numPoints as real;
      points := points + [BezierAt(p0, p1, p2, p3, t)];
      i := i + 1;
    }
    if numPoints > 0 {
      assert points[0] == p0 by {
        assert 0 as real / numPoints as real == 0.0;
        BezierEnds(p0.x, p1.x, p2.x, p3.x);
        BezierEnds(p0.y, p1.y, p2.y, p3.y);
      }
      assert points[numPoints] == p3 by {
        assert numPoints as real / numPoints as real == 1.0;
        BezierEnds(p0.x, p1.x, p2.x, p3.x);
        BezierEnds(p0.y, p1.y, p2.y, p3.y);
      }
    }
  }

  // ---------------------------------------------------------------------
  // `human_swipe`

  /** The control points of `human_swipe`: a third and two thirds of the
      way from start to end, with the drawn offsets added to x only. */
  function ControlPoints(start: Point, end: Point, offset1: real, offset2: real): (Point, Point)
  {
    var dx, dy := end.x - start.x, end.y - start.y;
    (Point(start.x + dx * 0.33 + offset1, start.y + dy * 0.33),
     Point(start.x + dx * 0.66 + offset2, start.y + dy * 0.66))
  }

  /** The control points are at 33% and 66% of the way in y and no further
      than the offset range (50) from those points in x; without offsets
      they lie on the segment from start to end. */
  lemma ControlPointsSpec(start: Point, end: Point, offset1: real, offset2: real)
    requires LS.Between(offset1, -50.0, 50.0) && LS.Between(offset2, -50.0, 50.0)
    ensures var (cp1, cp2) := ControlPoints(start, end, offset1, offset2);
      cp1.y - start.y == 0.33 * (end.y - start.y) && cp2.y - start.y == 0.66 * (end.y - start.y) &&
      LS.Abs(cp1.x - (start.x + 0.33 * (end.x - start.x))) <= 50.0 &&
      LS.Abs(cp2.x - (start.x + 0.66 * (end.x - start.x))) <= 50.0
    ensures var (cp1, cp2) := ControlPoints(start, end, 0.0, 0.0);
      (cp1.x - start.x) * (end.y - start.y) == (cp1.y - start.y) * (end.x - start.x) &&
      (cp2.x - start.x) * (end.y - start.y) == (cp2.y - start.y) * (end.x - start.x)
  {
  }

  /** Segments in the first and last fifth of the swipe are slowed down. */
  predicate SlowPhase(i: int, numPoints: int)
    requires numPoints != 0
  {
    var progress := i as real / numPoints as real;
    progress < 0.2 || progress > 0.8
  }

  /** The ranges `speed_multiplier` is drawn from. */
  predicate MultiplierInRange(i: int, numPoints: int, m: real)
    requires numPoints != 0
  {
    if SlowPhase(i, numPoints) then 1.2 <= m <= 1.5 else 0.7 <= m <= 1.0
  }

  /** One of the short swipes `human_swipe` issues, with the pause after
      it. */
  datatype MicroSwipe = MicroSwipe(from: Point, to: Point, delay: real)

  /** `human_swipe(d, start_x, start_y, end_x, end_y, duration)` given its
      draws: the control-point offsets, the number of points and the speed
      multiplier of each segment. Returns the micro-swipes in order. */
  method HumanSwipe(start: Point, end: Point, duration: real, offset1: real, offset2: real,
                    numPoints: int, multipliers: seq<real>) returns (swipes: seq<MicroSwipe>)
    requires 15 <= numPoints <= 25 && |multipliers| == numPoints
    ensures |swipes| == numPoints
    ensures swipes[0].from == start && swipes[numPoints - 1].to == end
    ensures forall i :: 0 <= i < numPoints - 1 ==> swipes[i].to == swipes[i + 1].from
    ensures forall i :: 0 <= i < numPoints ==>
      swipes[i].from == BezierAt(start, ControlPoints(start, end, offset1, offset2).0,
                                 ControlPoints(start, end, offset1, offset2).1, end, i as real / numPoints as real)
    ensures forall i :: 0 <= i < numPoints ==> swipes[i].delay == duration / numPoints as real * multipliers[i]
  {
    var cp1, cp2 := ControlPoints(start, end, offset1, offset2).0, ControlPoints(start, end, offset1, offset2).1;
    var points := BezierCurve(start, cp1, cp2, end, numPoints);
    assert |points| == numPoints + 1;
    var baseDelay := duration / numPoints as real;
    swipes := Segments(points, baseDelay, multipliers);
    forall i | 0 <= i < numPoints
      ensures swipes[i].delay == duration / numPoints as real * multipliers[i]
    {
      assert swipes[i].delay == baseDelay * multipliers[i];
    }
    assert swipes[0].from == start && swipes[numPoints - 1].to == end &&
      forall i :: 0 <= i < numPoints - 1 ==> swipes[i].to == swipes[i + 1].from
    by {
      ChainOfSegments(points, swipes);
    }
    assert forall i :: 0 <= i < numPoints ==> swipes[i].from == BezierAt(start, cp1, cp2, end, i as real / numPoints as real) by {
      forall i | 0 <= i < numPoints
        ensures swipes[i].from == BezierAt(start, cp1, cp2, end, i as real / numPoints as real)
      {
        assert swipes[i].from == points[i];
      }
    }
  }

  /** The loop of `human_swipe`: a swipe from each point to the next,
      pausing `base_delay * speed_multiplier` after it. */
  method Segments(points: seq<Point>, baseDelay: real, multipliers: seq<real>) returns (swipes: seq<MicroSwipe>)
    requires |points| >= 1 && |multipliers| == |points| - 1
    ensures |swipes| == |points| - 1
    ensures forall k :: 0 <= k < |swipes| ==> swipes[k].from == points[k] && swipes[k].to == points[k + 1]
    ensures forall k :: 0 <= k < |swipes| ==> swipes[k].delay == baseDelay * multipliers[k]
  {
    swipes := [];
    var i := 0;
    while i < |points| - 1
      invariant 0 <= i <= |points| - 1 && |swipes| == i
      invariant forall k :: 0 <= k < i ==> swipes[k].from == points[k] && swipes[k].to == points[k + 1]
      invariant forall k :: 0 <= k < i ==> swipes[k].delay == baseDelay * multipliers[k]
    {
      var delay := baseDelay * multipliers[i];
      swipes := swipes + [MicroSwipe(points[i], points[i + 1], delay)];
      i := i + 1;
    }
  }

  /** Swipes that each go from one point to the next start at the first
      point, end at the last, and each starts where the one before it
      ended. */
  lemma ChainOfSegments(points: seq<Point>, swipes: seq<MicroSwipe>)
    requires |swipes| >= 1 && |points| == |swipes| + 1
    requires forall k :: 0 <= k < |swipes| ==> swipes[k].from == points[k] && swipes[k].to == points[k + 1]
    ensures swipes[0].from == points[0] && swipes[|swipes| - 1].to == points[|swipes|]
    ensures forall k :: 0 <= k < |swipes| - 1 ==> swipes[k].to == swipes[k + 1].from
  {
  }

  function TotalDelay(swipes: seq<MicroSwipe>): real
  {
    if |swipes| == 0 then 0.0 else TotalDelay(swipes[..|swipes| - 1]) + swipes[|swipes| - 1].delay
  }

  lemma ScaleSucc(c: real, base: real, n: nat)
    ensures c * base * (n + 1) as real == c * base * n as real + base * c
  {
  }

  lemma ScaledDelay(base: real, m: real, d: real)
    requires base >= 0.0 && d == base * m && 0.7 <= m <= 1.5
    ensures base * 0.7 <= d <= base * 1.5
  {
    WeightedBounds(base, m, 0.7, 1.5);
  }

  /** The pauses of the swipes add up to between 0.7 and 1.5 times the
      requested duration. */
  lemma {:induction false} TotalDelayBounds(swipes: seq<MicroSwipe>, base: real, multipliers: seq<real>)
    requires base >= 0.0 && |multipliers| == |swipes|
    requires forall i :: 0 <= i < |swipes| ==> swipes[i].delay == base * multipliers[i] && 0.7 <= multipliers[i] <= 1.5
    ensures 0.7 * base * |swipes| as real <= TotalDelay(swipes) <= 1.5 * base * |swipes| as real
    decreases |swipes|
  {
    if |swipes| > 0 {
      var n := |swipes| - 1;
      var t := TotalDelay(swipes[..n]);
      var d := swipes[n].delay;
      var lo := 0.7 * base * n as real;
      var hi := 1.5 * base * n as real;
      assert lo <= t <= hi by {
        TotalDelayBounds(swipes[..n], base, multipliers[..n]);
      }
      assert base * 0.7 <= d <= base * 1.5 by {
        assert d == base * multipliers[n] && 0.7 <= multipliers[n] <= 1.5;
        ScaledDelay(base, multipliers[n], d);
      }
      assert TotalDelay(swipes) == t + d;
      assert 0.7 * base * |swipes| as real == lo + base * 0.7 by { ScaleSucc(0.7, base, n); }
      assert 1.5 * base * |swipes| as real == hi + base * 1.5 by { ScaleSucc(1.5, base, n); }
      AddBounds(lo, base * 0.7, 0.0, 0.0, t, d, 0.0, 0.0, hi, base * 1.5, 0.0, 0.0);
    }
  }

  /** Whatever is drawn, a swipe of `duration` seconds pauses between 0.7
      and 1.5 times that long in all. */
  lemma HumanSwipeDuration(swipes: seq<MicroSwipe>, duration: real, numPoints: int, multipliers: seq<real>)
    requires duration >= 0.0 && 15 <= numPoints <= 25 && |multipliers| == numPoints && |swipes| == numPoints
    requires forall i :: 0 <= i < numPoints ==> MultiplierInRange(i, numPoints, multipliers[i])
    requires forall i :: 0 <= i < numPoints ==> swipes[i].delay == duration / numPoints as real * multipliers[i]
    ensures 0.7 * duration <= TotalDelay(swipes) <= 1.5 * duration
  {
    var base := duration / numPoints as real;
    TotalDelayBounds(swipes, base, multipliers);
    assert base * numPoints as real == duration;
  }

  // ---------------------------------------------------------------------
  // `action_gallery_browse`

  /** The draws of one browsing step: whether `random() < 0.3`, the base y,
      the two y jitters, the fraction of the width to swipe, the two
      possible start x (right side when moving on, left side when going
      back) and the duration. */
  datatype GalleryDraw = GalleryDraw(
    goBack: bool, yBase: real, startJitter: int, endJitter: int,
    distance: real, startNext: real, startPrev: real, duration: real)

  predicate DrawInRange(g: GalleryDraw, w: real, h: real)
  {
    LS.Between(g.yBase, h * 0.12 + 50.0, h * 0.54 - 50.0) &&
    -20 <= g.startJitter <= 20 && -20 <= g.endJitter <= 20 &&
    LS.Between(g.distance, 0.4, 0.7) &&
    LS.Between(g.startNext, w * 0.93 - 100.0, w * 0.93 - 10.0) &&
    LS.Between(g.startPrev, w * 0.13 + 10.0, w * 0.13 + 100.0) &&
    LS.Between(g.duration, 0.2, 0.45)
  }

  /** A swipe of the gallery: `back` when it goes to the previous image. */
  datatype GallerySwipe = GallerySwipe(back: bool, startX: real, startY: real, endX: real, endY: real, duration: real)

  /** The image index after one step: back only from a later image. */
  function NextIndex(index: int, goBack: bool): int
  {
    if index > 0 && goBack then index - 1 else index + 1
  }

  /** The image index after the steps whose `random() < 0.3` outcomes are
      `goBacks`, starting at the first image. */
  function IndexAfter(goBacks: seq<bool>): int
  {
    if |goBacks| == 0 then 0 else NextIndex(IndexAfter(goBacks[..|goBacks| - 1]), goBacks[|goBacks| - 1])
  }

  /** The index never goes below the first image nor past the number of
      steps, and moves by one each step. */
  lemma {:induction false} IndexAfterSpec(goBacks: seq<bool>)
    ensures 0 <= IndexAfter(goBacks) <= |goBacks|
    ensures IndexAfter(goBacks) % 2 == |goBacks| % 2
    decreases |goBacks|
  {
    if |goBacks| > 0 {
      IndexAfterSpec(goBacks[..|goBacks| - 1]);
    }
  }

  function GoBacks(draws: seq<GalleryDraw>): seq<bool>
  {
    seq(|draws|, i requires 0 <= i < |draws| => draws[i].goBack)
  }

  datatype Direction = Next | Prev

  /** The swipe of one step in `direction`: right to left from the right
      side to the next image, left to right from the left side to the
      previous one, by the drawn fraction of the width, clamped to the
      gallery. */
  function StepSwipe(g: GalleryDraw, w: real, direction: Direction): GallerySwipe
  {
    var areaLeft, areaRight := w * 0.13, w * 0.93;
    var startY, endY := g.yBase + g.startJitter as real, g.yBase + g.endJitter as real;
    var baseDistance := w * g.distance;
    if direction == Next then
      GallerySwipe(false, g.startNext, startY, LS.Max(areaLeft, g.startNext - baseDistance), endY, g.duration)
    else
      GallerySwipe(true, g.startPrev, startY, LS.Min(areaRight, g.startPrev + baseDistance), endY, g.duration)
  }

  /** A swipe goes the way its direction says. */
  predicate Heading(s: GallerySwipe)
  {
    (s.back ==> s.startX <= s.endX) && (!s.back ==> s.endX <= s.startX)
  }

  /** Every step's swipe ends inside the gallery's horizontal bounds and
      goes the way its direction says. */
  lemma StepSwipeSpec(g: GalleryDraw, w: real, h: real, direction: Direction)
    requires w >= 0.0 && DrawInRange(g, w, h)
    ensures w * 0.13 <= StepSwipe(g, w, direction).endX <= w * 0.93
    ensures StepSwipe(g, w, direction).back <==> direction == Prev
    ensures w >= 125.0 ==> Heading(StepSwipe(g, w, direction))
  {
    var baseDistance := w * g.distance;
    assert baseDistance >= 0.0 by {
      LS.MulMono(0.0, g.distance, w);
      assert g.distance * w == w * g.distance;
    }
    assert w * 0.13 <= w * 0.93;
  }

  /** `action_gallery_browse(d)` on a `w` by `h` window with its draws: the
      swipes made and the final index. Going back happens only from a later
      image, and every swipe ends inside the gallery's horizontal bounds. */
  method GalleryBrowse(w: real, h: real, steps: int, draws: seq<GalleryDraw>) returns (currentIdx: int, swipes: seq<GallerySwipe>)
    requires w >= 0.0 && 1 <= steps <= 4 && |draws| == steps
    requires forall i :: 0 <= i < steps ==> DrawInRange(draws[i], w, h)
    ensures currentIdx == IndexAfter(GoBacks(draws)) && currentIdx >= 0
    ensures |swipes| == steps
    ensures forall k :: 0 <= k < steps ==> (swipes[k].back <==> draws[k].goBack && IndexAfter(GoBacks(draws)[..k]) > 0)
    ensures forall k :: 0 <= k < steps ==> w * 0.13 <= swipes[k].endX <= w * 0.93
    ensures w >= 125.0 ==> forall k :: 0 <= k < steps ==> Heading(swipes[k])
  {
    var areaLeft := w * 0.13;
    var areaRight := w * 0.93;
    currentIdx := 0;
    swipes := [];
    var i := 0;
    while i < steps
      invariant 0 <= i <= steps && |swipes| == i
      invariant currentIdx == IndexAfter(GoBacks(draws)[..i])
      invariant forall k :: 0 <= k < i ==> (swipes[k].back <==> draws[k].goBack && IndexAfter(GoBacks(draws)[..k]) > 0)
      invariant forall k :: 0 <= k < i ==> areaLeft <= swipes[k].endX <= areaRight
      invariant w >= 125.0 ==> forall k :: 0 <= k < i ==> Heading(swipes[k])
    {
      var next, swipe := BrowseStep(draws[i], w, h, currentIdx);
      assert next == IndexAfter(GoBacks(draws)[..i + 1]) by {
        IndexStep(draws, i);
      }
      BacksExtend(swipes, swipe, draws, currentIdx);
      currentIdx := next;
      swipes := swipes + [swipe];
      i := i + 1;
    }
    assert GoBacks(draws)[..i] == GoBacks(draws);
    IndexAfterSpec(GoBacks(draws));
  }

  /** One step of the loop of `action_gallery_browse`: the direction, the
      swipe and the index after it. */
  method BrowseStep(g: GalleryDraw, w: real, h: real, currentIdx: int) returns (next: int, swipe: GallerySwipe)
    requires w >= 0.0 && DrawInRange(g, w, h)
    ensures next == NextIndex(currentIdx, g.goBack)
    ensures swipe.back <==> g.goBack && currentIdx > 0
    ensures w * 0.13 <= swipe.endX <= w * 0.93
    ensures w >= 125.0 ==> Heading(swipe)
  {
    var direction := if currentIdx > 0 && g.goBack then Prev else Next;
    swipe := StepSwipe(g, w, direction);
    StepSwipeSpec(g, w, h, direction);
    if direction == Next {
      next := currentIdx + 1;
    } else {
      next := currentIdx - 1;
    }
  }

  /** The invariant on the directions of the swipes survives one more
      swipe. */
  lemma BacksExtend(swipes: seq<GallerySwipe>, swipe: GallerySwipe, draws: seq<GalleryDraw>, currentIdx: int)
    requires |swipes| < |draws| && currentIdx == IndexAfter(GoBacks(draws)[..|swipes|])
    requires forall k :: 0 <= k < |swipes| ==> (swipes[k].back <==> draws[k].goBack && IndexAfter(GoBacks(draws)[..k]) > 0)
    requires swipe.back <==> draws[|swipes|].goBack && currentIdx > 0
    ensures forall k :: 0 <= k <= |swipes| ==>
      ((swipes + [swipe])[k].back <==> draws[k].goBack && IndexAfter(GoBacks(draws)[..k]) > 0)
  {
  }

  lemma IndexStep(draws: seq<GalleryDraw>, i: int)
    requires 0 <= i < |draws|
    ensures IndexAfter(GoBacks(draws)[..i + 1]) == NextIndex(IndexAfter(GoBacks(draws)[..i]), draws[i].goBack)
  {
    assert GoBacks(draws)[..i + 1][..i] == GoBacks(draws)[..i];
  }

  // ---------------------------------------------------------------------
  // `get_adb_cmd`

  /** What the device's shell is asked to run: `ls` commands as they are,
      everything else through `su -c` in single quotes. */
  function DeviceCommand(shellCmd: string): string
  {
    if StartsWith(shellCmd, "ls ") then shellCmd else "su -c '" + shellCmd + "'"
  }

  /** `get_adb_cmd(shell_cmd)` with the adb path, whether it exists, and the
      device id (empty for none). */
  function AdbCmd(adb: string, adbExists: bool, dev: string, shellCmd: string): Option<seq<string>>
  {
    if adb == "" || !adbExists then None
    else Some([adb] + (if dev != "" then ["-s", dev] else []) + ["shell", DeviceCommand(shellCmd)])
  }

  /** There is no command exactly when the adb path is missing; otherwise it
      is the `adb [-s id] shell` vector of the adb helper around the device
      command, and the device's shell reads a command without single quotes
      as `su`, `-c` and that command, while `ls` commands skip `su`. */
  lemma AdbCmdSpec(adb: string, adbExists: bool, dev: string, shellCmd: string)
    ensures AdbCmd(adb, adbExists, dev, shellCmd).None? <==> adb == "" || !adbExists
    ensures AdbCmd(adb, adbExists, dev, shellCmd).Some? ==>
      AdbCmd(adb, adbExists, dev, shellCmd).value == AdbHelper.ShellArgv(adb, dev, false, DeviceCommand(shellCmd))
    ensures StartsWith(shellCmd, "ls ") ==> DeviceCommand(shellCmd) == shellCmd
    ensures !StartsWith(shellCmd, "ls ") && '\'' !in shellCmd ==>
      ShellWords(DeviceCommand(shellCmd)) == Some(["su", "-c", shellCmd])
  {
    if !StartsWith(shellCmd, "ls ") && '\'' !in shellCmd {
      LS.SuReadsSingleQuoted(shellCmd);
    }
  }
}
