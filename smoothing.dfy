/** The arithmetic of the browser drawing front end, as values: the mirrored
    fingertip, the sliding smoothing window of one camera, the stroke gate,
    the two-camera "distance" score and the all-arrived barrier. The classes
    in module Cameras are specified in terms of these functions. */
module Smoothing {
  import opened Landmarks

  /** Canvas size, `WIDTH` and `HEIGHT`. */
  const Width: real := 800.0
  const Height: real := 600.0

  /** The open interval of distance scores in which strokes are drawn. */
  const DistanceLow: real := 1000.0
  const DistanceHigh: real := 1300.0

  /** The draw colour that disables drawing. */
  const NoColor: string := "none"

  /** A canvas point `[x, y]`. */
  datatype Point = Point(x: real, y: real)

  /** One line segment stroked on the shared canvas. */
  datatype Stroke = Stroke(from: Point, to: Point, color: string)

  function Abs(v: real): (r: real)
    ensures 0.0 <= r && (r == v || r == -v)
  {
    if v < 0.0 then -v else v
  }

  // ---------------------------------------------------------------------
  // Fingertip

  /** The fingertip in canvas coordinates, mirrored horizontally:
      `x = W - lx * W`, `y = ly * H`, for a canvas of client size W x H. */
  function MirroredTip(h: Hand, w: real, height: real): (p: Point)
  {
    Point(w - Tip(h).x * w, Tip(h).y * height)
  }

  /** A landmark inside the image lands inside the canvas. */
  lemma MirroredTipInCanvas(h: Hand, w: real, height: real)
    requires 0.0 <= w && 0.0 <= height
    requires 0.0 <= Tip(h).x <= 1.0 && 0.0 <= Tip(h).y <= 1.0
    ensures 0.0 <= MirroredTip(h, w, height).x <= w
    ensures 0.0 <= MirroredTip(h, w, height).y <= height
  {
    assert Tip(h).x * w <= w;
    assert Tip(h).y * height <= height;
  }

  /** Mirroring reverses left and right and keeps top and bottom. */
  lemma MirroredTipOrder(a: Hand, b: Hand, w: real, height: real)
    requires 0.0 < w && 0.0 < height
    ensures Tip(a).x < Tip(b).x <==> MirroredTip(b, w, height).x < MirroredTip(a, w, height).x
    ensures Tip(a).y < Tip(b).y <==> MirroredTip(a, w, height).y < MirroredTip(b, w, height).y
  {
    if Tip(a).x < Tip(b).x {
      assert Tip(a).x * w < Tip(b).x * w;
    }
    if Tip(a).y < Tip(b).y {
      assert Tip(a).y * height < Tip(b).y * height;
    }
  }

  // ---------------------------------------------------------------------
  // Averaging

  /** Componentwise sum of the points. */
  function Sum(ps: seq<Point>): (s: Point)
    decreases |ps|
  {
    if ps == [] then Point(0.0, 0.0)
    else
      var s := Sum(ps[..|ps| - 1]);
      Point(s.x + ps[|ps| - 1].x, s.y + ps[|ps| - 1].y)
  }

  /** Componentwise mean of a non-empty window. */
  function Mean(ps: seq<Point>): (m: Point)
    requires ps != []
  {
    Point(Sum(ps).x / |ps| as real, Sum(ps).y / |ps| as real)
  }

  /** Sum of a window whose x coordinates lie in [lo, hi]. */
  lemma {:induction false} SumBoundsX(ps: seq<Point>, lo: real, hi: real)
    requires forall i :: 0 <= i < |ps| ==> lo <= ps[i].x <= hi
    ensures |ps| as real * lo <= Sum(ps).x <= |ps| as real * hi
    decreases |ps|
  {
    if ps != [] {
      var front := ps[..|ps| - 1];
      SumBoundsX(front, lo, hi);
      assert lo <= ps[|ps| - 1].x <= hi;
      StepBound(|front| as real, Sum(front).x, ps[|ps| - 1].x, lo, hi);
    }
  }

  /** Sum of a window whose y coordinates lie in [lo, hi]. */
  lemma {:induction false} SumBoundsY(ps: seq<Point>, lo: real, hi: real)
    requires forall i :: 0 <= i < |ps| ==> lo <= ps[i].y <= hi
    ensures |ps| as real * lo <= Sum(ps).y <= |ps| as real * hi
    decreases |ps|
  {
    if ps != [] {
      var front := ps[..|ps| - 1];
      SumBoundsY(front, lo, hi);
      assert lo <= ps[|ps| - 1].y <= hi;
      StepBound(|front| as real, Sum(front).y, ps[|ps| - 1].y, lo, hi);
    }
  }

  /** One more summand in [lo, hi] keeps a running total between count * lo
      and count * hi. */
  lemma StepBound(m: real, total: real, v: real, lo: real, hi: real)
    requires m * lo <= total <= m * hi && lo <= v <= hi
    ensures (m + 1.0) * lo <= total + v <= (m + 1.0) * hi
  {
    assert (m + 1.0) * lo == m * lo + lo;
    assert (m + 1.0) * hi == m * hi + hi;
  }

  /** Dividing a bound on a total by a positive count bounds the average. */
  lemma DivideBounds(total: real, n: real, lo: real, hi: real)
    requires 0.0 < n && n * lo <= total <= n * hi
    ensures lo <= total / n <= hi
  {
    var q := total / n;
    assert q * n == total;
  }

  /** The mean lies within any box that holds every point of the window. */
  lemma MeanWithinBounds(ps: seq<Point>, lo: Point, hi: Point)
    requires ps != []
    requires forall i :: 0 <= i < |ps| ==> lo.x <= ps[i].x <= hi.x && lo.y <= ps[i].y <= hi.y
    ensures lo.x <= Mean(ps).x <= hi.x && lo.y <= Mean(ps).y <= hi.y
  {
    SumBoundsX(ps, lo.x, hi.x);
    SumBoundsY(ps, lo.y, hi.y);
    DivideBounds(Sum(ps).x, |ps| as real, lo.x, hi.x);
    DivideBounds(Sum(ps).y, |ps| as real, lo.y, hi.y);
  }

  /** A window holding one point repeated averages to that point. */
  lemma MeanOfSteadyWindow(ps: seq<Point>, p: Point)
    requires ps != []
    requires forall i :: 0 <= i < |ps| ==> ps[i] == p
    ensures Mean(ps) == p
  {
    MeanWithinBounds(ps, p, p);
  }

  // ---------------------------------------------------------------------
  // Smoothing window of one camera

  /** The last n elements of s (all of s when it is shorter). */
  function LastN(s: seq<Point>, n: nat): (r: seq<Point>)
    ensures |r| <= n && |r| <= |s|
    ensures |s| <= n ==> r == s
    ensures n <= |s| ==> |r| == n
  {
    if |s| <= n then s else s[|s| - n..]
  }

  /** A stroke from the previous line point is issued when drawing is on, a
      previous line point exists, and there is either no camera pair or its
      distance score lies in the open interval (1000, 1300). An undefined score
      (`None`) closes the gate, since every comparison with it is false. */
  predicate StrokeGate(color: string, lastLine: Option<Point>, paired: bool, distance: Option<real>)
  {
    color != NoColor && lastLine.Some? && (!paired || DistanceGateOpen(distance))
  }

  /** `distance > 1000 && distance < 1300`. */
  predicate DistanceGateOpen(distance: Option<real>)
  {
    distance.Some? && DistanceLow < distance.value && distance.value < DistanceHigh
  }

  /** The state of one camera's smoother: the window of recent fingertips,
      the last forwarded average, whether a hand was ever tracked, and the
      strokes on the canvas. */
  datatype Tracker = Tracker(window: seq<Point>, lastLine: Option<Point>, tracked: bool, strokes: seq<Stroke>)

  /** How the camera settings and the pair's gate enter one step. */
  datatype Settings = Settings(steps: nat, color: string, paired: bool, distance: Option<real>)

  /** A Tracker that a window of `steps` points bounds. */
  predicate Bounded(t: Tracker, s: Settings) {
    1 <= s.steps && |t.window| <= s.steps
  }

  /** One fingertip: when the window is full, its mean becomes the new line
      point (stroked to from the old one when the gate allows) and the oldest
      point is dropped; the fingertip is appended either way. */
  function Feed(t: Tracker, s: Settings, tip: Point): (r: Tracker)
    requires Bounded(t, s)
    ensures Bounded(r, s)
  {
    if |t.window| == s.steps then
      var avg := Mean(t.window);
      var strokes := if StrokeGate(s.color, t.lastLine, s.paired, s.distance)
                     then t.strokes + [Stroke(t.lastLine.value, avg, s.color)]
                     else t.strokes;
      Tracker(t.window[1..] + [tip], Some(avg), true, strokes)
    else
      Tracker(t.window + [tip], t.lastLine, t.tracked, t.strokes)
  }

  /** All fingertips of one result, in order. */
  function FeedAll(t: Tracker, s: Settings, tips: seq<Point>): (r: Tracker)
    requires Bounded(t, s)
    ensures Bounded(r, s)
    decreases |tips|
  {
    if tips == [] then t else Feed(FeedAll(t, s, tips[..|tips| - 1]), s, tips[|tips| - 1])
  }

  /** Some fingertip of the result found the window full. */
  predicate Averaged(t: Tracker, s: Settings, tips: seq<Point>) {
    tips != [] && |t.window| + |tips| > s.steps
  }

  /** One step appends exactly one point, after dropping the oldest when the
      window was full, and stroke or not is exactly the gate. */
  lemma FeedStep(t: Tracker, s: Settings, tip: Point)
    requires Bounded(t, s)
    ensures Feed(t, s, tip).window ==
      (if |t.window| == s.steps then t.window[1..] else t.window) + [tip]
    ensures |Feed(t, s, tip).strokes| == |t.strokes| + 1 <==>
      |t.window| == s.steps && StrokeGate(s.color, t.lastLine, s.paired, s.distance)
    ensures |t.window| == s.steps ==> Feed(t, s, tip).lastLine == Some(Mean(t.window))
  {
  }

  /** After any run of fingertips the window holds the most recent `steps`
      points of everything seen. */
  lemma {:induction false} FeedAllWindow(t: Tracker, s: Settings, tips: seq<Point>)
    requires Bounded(t, s)
    ensures FeedAll(t, s, tips).window == LastN(t.window + tips, s.steps)
    decreases |tips|
  {
    if tips != [] {
      var front := tips[..|tips| - 1];
      var last := tips[|tips| - 1];
      FeedAllWindow(t, s, front);
      var w := FeedAll(t, s, front).window;
      var all := t.window + tips;
      assert all == (t.window + front) + [last];
      if |t.window + front| <= s.steps {
        assert w == t.window + front;
      } else {
        assert w == (t.window + front)[|t.window + front| - s.steps..];
        assert |w| == s.steps;
        assert w[1..] + [last] == all[|all| - s.steps..];
      }
    }
  }

  /** The tracked flag ends true exactly when it was true already or some
      fingertip found the window full; it never goes back to false. */
  lemma {:induction false} FeedAllTracked(t: Tracker, s: Settings, tips: seq<Point>)
    requires Bounded(t, s)
    ensures FeedAll(t, s, tips).tracked <==> t.tracked || Averaged(t, s, tips)
    decreases |tips|
  {
    if tips != [] {
      var front := tips[..|tips| - 1];
      FeedAllTracked(t, s, front);
      FeedAllWindow(t, s, front);
    }
  }

  /** The line point after a result is the mean of the window as it stood
      just before the last fingertip was appended. */
  lemma FeedAllLastLine(t: Tracker, s: Settings, tips: seq<Point>)
    requires Bounded(t, s) && Averaged(t, s, tips)
    ensures FeedAll(t, s, tips).lastLine
         == Some(Mean(LastN(t.window + tips[..|tips| - 1], s.steps)))
  {
    FeedAllWindow(t, s, tips[..|tips| - 1]);
  }

  /** Strokes are only ever appended to the canvas. */
  lemma {:induction false} FeedAllKeepsStrokes(t: Tracker, s: Settings, tips: seq<Point>)
    requires Bounded(t, s)
    ensures t.strokes <= FeedAll(t, s, tips).strokes
    decreases |tips|
  {
    if tips != [] {
      FeedAllKeepsStrokes(t, s, tips[..|tips| - 1]);
    }
  }

  /** With drawing off, no result ever strokes. */
  lemma {:induction false} NoColorNeverStrokes(t: Tracker, s: Settings, tips: seq<Point>)
    requires Bounded(t, s) && s.color == NoColor
    ensures FeedAll(t, s, tips).strokes == t.strokes
    decreases |tips|
  {
    if tips != [] {
      NoColorNeverStrokes(t, s, tips[..|tips| - 1]);
    }
  }

  // ---------------------------------------------------------------------
  // Distance score of the camera pair

  /** Σ |o.x - p.x| over the points. */
  function AbsDiffX(o: Point, ps: seq<Point>): (r: real)
    ensures 0.0 <= r
    decreases |ps|
  {
    if ps == [] then 0.0 else AbsDiffX(o, ps[..|ps| - 1]) + Abs(o.x - ps[|ps| - 1].x)
  }

  /** Σ |o.y - p.y| over the points. */
  function AbsDiffY(o: Point, ps: seq<Point>): (r: real)
    ensures 0.0 <= r
    decreases |ps|
  {
    if ps == [] then 0.0 else AbsDiffY(o, ps[..|ps| - 1]) + Abs(o.y - ps[|ps| - 1].y)
  }

  /** `WIDTH + HEIGHT - Σ|x0 - xi| + Σ|y0 - yi|` over i >= 1, signs as written. */
  function DistanceScore(pts: seq<Point>): (r: real)
    ensures |pts| <= 1 ==> r == Width + Height
  {
    if pts == [] then Width + Height
    else Width + Height - AbsDiffX(pts[0], pts[1..]) + AbsDiffY(pts[0], pts[1..])
  }

  /** Points that agree with the first one contribute nothing. */
  lemma {:induction false} AbsDiffOfEqual(o: Point, ps: seq<Point>)
    requires forall i :: 0 <= i < |ps| ==> ps[i] == o
    ensures AbsDiffX(o, ps) == 0.0 && AbsDiffY(o, ps) == 0.0
    decreases |ps|
  {
    if ps != [] {
      AbsDiffOfEqual(o, ps[..|ps| - 1]);
    }
  }

  /** When every camera reports the same point (in particular with a single
      camera) the score is WIDTH + HEIGHT, outside the gate. */
  lemma AgreeingPointsCloseGate(pts: seq<Point>)
    requires forall i :: 0 <= i < |pts| ==> pts[i] == pts[0]
    ensures DistanceScore(pts) == Width + Height
    ensures !DistanceGateOpen(Some(DistanceScore(pts)))
  {
    if pts != [] {
      AbsDiffOfEqual(pts[0], pts[1..]);
    }
  }

  /** For a pair of cameras the gate is open exactly when the horizontal
      disagreement exceeds the vertical one by between 100 and 400. */
  lemma TwoCameraGate(a: Point, b: Point)
    ensures DistanceScore([a, b]) == Width + Height - Abs(a.x - b.x) + Abs(a.y - b.y)
    ensures DistanceGateOpen(Some(DistanceScore([a, b]))) <==>
      100.0 < Abs(a.x - b.x) - Abs(a.y - b.y) < 400.0
  {
    assert [a, b][1..] == [b];
    assert [b][..0] == [];
    assert AbsDiffX(a, [b]) == Abs(a.x - b.x);
    assert AbsDiffY(a, [b]) == Abs(a.y - b.y);
  }

  // ---------------------------------------------------------------------
  // All-arrived barrier

  predicate AllTrue(flags: seq<bool>) {
    forall i :: 0 <= i < |flags| ==> flags[i]
  }

  /** How many flags are set. */
  function CountTrue(flags: seq<bool>): (n: nat)
    ensures n <= |flags|
    decreases |flags|
  {
    if flags == [] then 0
    else CountTrue(flags[..|flags| - 1]) + (if flags[|flags| - 1] then 1 else 0)
  }

  /** The outcome of one callback: the new flags and whether the round ended. */
  datatype Arrival = Arrival(flags: seq<bool>, fired: bool)

  /** Camera i calls back: its flag is set; when that completes the set, every
      flag is cleared and the round ends. */
  function Arrive(flags: seq<bool>, i: nat): (a: Arrival)
    requires i < |flags|
    ensures |a.flags| == |flags|
    ensures a.fired <==> forall j :: 0 <= j < |flags| && j != i ==> flags[j]
    ensures a.fired ==> forall j :: 0 <= j < |flags| ==> !a.flags[j]
    ensures !a.fired ==> a.flags == flags[i := true]
  {
    var f := flags[i := true];
    assert AllTrue(f) <==> forall j :: 0 <= j < |flags| && j != i ==> flags[j] by {
      assert forall j :: 0 <= j < |flags| ==> f[j] == (j == i || flags[j]);
    }
    if AllTrue(f) then Arrival(seq(|f|, _ => false), true) else Arrival(f, false)
  }

  /** Rounds completed by a series of callbacks. */
  function Rounds(flags: seq<bool>, arrivals: seq<nat>): (r: nat)
    requires forall m :: 0 <= m < |arrivals| ==> arrivals[m] < |flags|
    decreases |arrivals|
  {
    if arrivals == [] then 0
    else
      var a := Arrive(flags, arrivals[0]);
      (if a.fired then 1 else 0) + Rounds(a.flags, arrivals[1..])
  }

  lemma {:induction false} CountAllFalse(flags: seq<bool>)
    requires forall j :: 0 <= j < |flags| ==> !flags[j]
    ensures CountTrue(flags) == 0
    decreases |flags|
  {
    if flags != [] {
      CountAllFalse(flags[..|flags| - 1]);
    }
  }

  /** Setting one flag raises the count by at most one; if every other flag
      was set, the count was at least |flags| - 1 already. */
  lemma {:induction false} CountSet(flags: seq<bool>, i: nat)
    requires i < |flags|
    ensures CountTrue(flags[i := true]) <= CountTrue(flags) + 1
    ensures (forall j :: 0 <= j < |flags| && j != i ==> flags[j]) ==> CountTrue(flags) + 1 >= |flags|
    decreases |flags|
  {
    var n := |flags| - 1;
    if i < n {
      CountSet(flags[..n], i);
      assert flags[i := true][..n] == flags[..n][i := true];
    } else {
      assert flags[i := true][..n] == flags[..n];
      if forall j :: 0 <= j < |flags| && j != i ==> flags[j] {
        AllSetCount(flags[..n]);
      }
    }
  }

  lemma {:induction false} AllSetCount(flags: seq<bool>)
    requires AllTrue(flags)
    ensures CountTrue(flags) == |flags|
    decreases |flags|
  {
    if flags != [] {
      AllSetCount(flags[..|flags| - 1]);
    }
  }

  /** The barrier needs every camera for each round: with n cameras, k
      callbacks complete at most (k + already set) / n rounds. */
  lemma {:induction false} RoundsNeedEveryCamera(flags: seq<bool>, arrivals: seq<nat>)
    requires forall m :: 0 <= m < |arrivals| ==> arrivals[m] < |flags|
    ensures |flags| * Rounds(flags, arrivals) <= |arrivals| + CountTrue(flags)
    decreases |arrivals|
  {
    if arrivals != [] {
      var i := arrivals[0];
      var rest := arrivals[1..];
      var a := Arrive(flags, i);
      var n := |flags|;
      RoundsNeedEveryCamera(a.flags, rest);
      CountSet(flags, i);
      var r := Rounds(a.flags, rest);
      assert n * r <= |rest| + CountTrue(a.flags);
      if a.fired {
        CountAllFalse(a.flags);
        assert n <= CountTrue(flags) + 1;
        assert Rounds(flags, arrivals) == 1 + r;
        assert n * (1 + r) == n + n * r;
      } else {
        assert Rounds(flags, arrivals) == r;
      }
    }
  }

  /** While the pending callbacks are exactly the cameras whose flag is clear,
      and each is pending once, the round completes exactly once, on the last
      of them. */
  lemma {:induction false} PendingRoundCompletes(flags: seq<bool>, arrivals: seq<nat>)
    requires arrivals != []
    requires forall m :: 0 <= m < |arrivals| ==> arrivals[m] < |flags|
    requires forall p, q :: 0 <= p < q < |arrivals| ==> arrivals[p] != arrivals[q]
    requires forall j :: 0 <= j < |flags| ==> (flags[j] <==> j !in arrivals)
    ensures Rounds(flags, arrivals) == 1
    decreases |arrivals|
  {
    var i := arrivals[0];
    var rest := arrivals[1..];
    var a := Arrive(flags, i);
    assert i !in rest;
    if rest == [] {
      assert a.fired;
      assert Rounds(flags, arrivals) == 1 + Rounds(a.flags, rest);
    } else {
      var j := rest[0];
      assert arrivals[1] == j && j != i;
      assert j in arrivals && !flags[j];
      assert !a.fired;
      forall k | 0 <= k < |flags|
        ensures a.flags[k] <==> k !in rest
      {
        if k != i {
          assert k in arrivals <==> k in rest by {
            if k in arrivals {
              var p :| 0 <= p < |arrivals| && arrivals[p] == k;
              assert p != 0 && rest[p - 1] == k;
            }
          }
        }
      }
      PendingRoundCompletes(a.flags, rest);
    }
  }

  /** From a cleared barrier, every one of the cameras calling back once
      completes exactly one round. */
  lemma FullSweepCompletesOneRound(n: nat, arrivals: seq<nat>)
    requires 1 <= n
    requires forall m :: 0 <= m < |arrivals| ==> arrivals[m] < n
    requires forall p, q :: 0 <= p < q < |arrivals| ==> arrivals[p] != arrivals[q]
    requires forall j :: 0 <= j < n ==> j in arrivals
    ensures Rounds(seq(n, _ => false), arrivals) == 1
  {
    assert 0 in arrivals;
    PendingRoundCompletes(seq(n, _ => false), arrivals);
  }
}
