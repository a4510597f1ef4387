/** The camera objects of the browser drawing front end: HandsCamera smooths
    the fingertip of one camera and strokes lines on the shared canvas;
    MultiHandsCamera pairs several cameras, waits for every one of them to
    deliver a frame, and scores how far apart their fingertips are. Each
    callback body is a sequential method; the browser's scheduling of them
    is not part of this model. */
module Cameras {
  import opened Landmarks
  import opened Smoothing

  /** The shared drawing canvas, seen as the strokes issued on it. */
  class Canvas {
    var strokes: seq<Stroke>

    constructor ()
      ensures strokes == []
    {
      strokes := [];
    }
  }

  /** Mirrored fingertips of the hands of one detector result. */
  function Tips(hands: seq<Hand>, w: real, height: real): (tips: seq<Point>)
    ensures |tips| == |hands|
    ensures forall m :: 0 <= m < |hands| ==> tips[m] == MirroredTip(hands[m], w, height)
  {
    seq(|hands|, m requires 0 <= m < |hands| => MirroredTip(hands[m], w, height))
  }

  /** The tracking points after `camera` reports `p`: every entry of that
      camera gets p, every other entry is left as it was. */
  function Retarget(tp: seq<(HandsCamera, Point)>, camera: HandsCamera, p: Point)
    : (r: seq<(HandsCamera, Point)>)
    ensures |r| == |tp|
    ensures forall m :: 0 <= m < |tp| ==> r[m].0 == tp[m].0
    ensures forall m :: 0 <= m < |tp| ==> r[m].1 == if tp[m].0 == camera then p else tp[m].1
  {
    seq(|tp|, m requires 0 <= m < |tp| => if tp[m].0 == camera then (camera, p) else tp[m])
  }

  /** A later report of the same camera overrides an earlier one. */
  lemma RetargetOverrides(tp: seq<(HandsCamera, Point)>, camera: HandsCamera, p: Point, q: Point)
    ensures Retarget(Retarget(tp, camera, p), camera, q) == Retarget(tp, camera, q)
  {
  }

  /** The points of the tracking entries, in camera order. */
  function PointsOf(tp: seq<(HandsCamera, Point)>): (ps: seq<Point>)
    ensures |ps| == |tp|
    ensures forall m :: 0 <= m < |tp| ==> ps[m] == tp[m].1
  {
    seq(|tp|, m requires 0 <= m < |tp| => tp[m].1)
  }

  /** `averagePoint`: the summing loop over the window, then the division. */
  method Average(ps: seq<Point>) returns (avg: Point)
    requires ps != []
    ensures avg == Mean(ps)
  {
    var x, y := 0.0, 0.0;
    var m := 0;
    while m < |ps|
      invariant 0 <= m <= |ps|
      invariant Point(x, y) == Sum(ps[..m])
    {
      assert ps[..m + 1][..m] == ps[..m];
      x := x + ps[m].x;
      y := y + ps[m].y;
      m := m + 1;
    }
    assert ps[..m] == ps;
    avg := Point(x / |ps| as real, y / |ps| as real);
  }

  class HandsCamera {
    const cameraNumber: int
    const drawColor: string
    const lineSmoothingSteps: nat
    const canvas: Canvas

    var multiHandsCamera: MultiHandsCamera?
    var handTracked: bool
    var initialized: bool
    var lastPoints: seq<Point>
    var lastLinePoint: Option<Point>

    /** The window never holds more than `lineSmoothingSteps` points. */
    ghost predicate Valid()
      reads this
    {
      1 <= lineSmoothingSteps && |lastPoints| <= lineSmoothingSteps
    }

    /** The smoother's state, including the strokes on the canvas. */
    ghost function State(): Tracker
      reads this, canvas
    {
      Tracker(lastPoints, lastLinePoint, handTracked, canvas.strokes)
    }

    /** The settings one result is processed with; the pair's distance score
        does not change while the result is processed. */
    ghost function Config(): Settings
      reads this, multiHandsCamera
    {
      Settings(lineSmoothingSteps, drawColor, multiHandsCamera != null,
               if multiHandsCamera == null then None else multiHandsCamera.distanceToCamera)
    }

    constructor (cameraNumber: int, drawColor: string, lineSmoothingSteps: nat, canvas: Canvas)
      requires 1 <= lineSmoothingSteps
      ensures Valid()
      ensures this.cameraNumber == cameraNumber && this.drawColor == drawColor
      ensures this.lineSmoothingSteps == lineSmoothingSteps && this.canvas == canvas
      ensures multiHandsCamera == null && !handTracked && !initialized
      ensures lastPoints == [] && lastLinePoint == None
    {
      this.cameraNumber := cameraNumber;
      this.drawColor := drawColor;
      this.lineSmoothingSteps := lineSmoothingSteps;
      this.canvas := canvas;
      multiHandsCamera := null;
      handTracked := false;
      initialized := false;
      lastPoints := [];
      lastLinePoint := None;
    }

    function IsInitialized(): (r: bool)
      reads this
    {
      initialized
    }

    /** The detector answered its first frame. */
    method InitializeHandObserving()
      modifies this`initialized
      ensures initialized
    {
      initialized := true;
    }

    method SetMultiHandsCamera(multi: MultiHandsCamera)
      modifies this`multiHandsCamera
      ensures multiHandsCamera == multi
    {
      multiHandsCamera := multi;
    }

    /** The detector's result callback. `results` is None when the result has
        no landmark list; `w` and `height` are the canvas's client size.
        `typeError` reports the dereference of a missing camera pair in the
        no-landmarks branch, which throws and changes nothing. */
    method OnResults(results: Option<seq<Hand>>, w: real, height: real) returns (typeError: bool)
      requires Valid()
      modifies this, canvas, multiHandsCamera
      ensures Valid()
      ensures typeError <==> results.None? && multiHandsCamera == null
      ensures multiHandsCamera == old(multiHandsCamera)
      ensures results.None? ==> State() == old(State())
      ensures results.None? && multiHandsCamera != null ==>
        multiHandsCamera.distanceToCamera == None &&
        multiHandsCamera.trackingPoints == old(multiHandsCamera.trackingPoints)
      ensures results.Some? ==>
        State() == FeedAll(old(State()), old(Config()), Tips(results.value, w, height))
      ensures results.Some? && Averaged(old(State()), old(Config()), Tips(results.value, w, height)) ==>
        lastLinePoint.Some?
      ensures results.Some? && multiHandsCamera != null ==>
        multiHandsCamera.distanceToCamera == old(multiHandsCamera.distanceToCamera) &&
        multiHandsCamera.trackingPoints ==
          (if Averaged(old(State()), old(Config()), Tips(results.value, w, height))
           then Retarget(old(multiHandsCamera.trackingPoints), this, lastLinePoint.value)
           else old(multiHandsCamera.trackingPoints))
      ensures multiHandsCamera != null ==>
        multiHandsCamera.processedFrames == old(multiHandsCamera.processedFrames) &&
        multiHandsCamera.calledBackFrames == old(multiHandsCamera.calledBackFrames) &&
        multiHandsCamera.lastDrawPoint == old(multiHandsCamera.lastDrawPoint)
      ensures old(handTracked) ==> handTracked
      ensures initialized == old(initialized)
    {
      var multi := multiHandsCamera;
      if results.None? {
        if multi == null {
          return true;
        }
        multi.ResetCurrentDistanceToCamera();
        return false;
      }
      typeError := false;
      var hands := results.value;
      ghost var start := State();
      ghost var cfg := Config();
      ghost var tips := Tips(hands, w, height);
      ghost var tp0 := if multi == null then [] else multi.trackingPoints;
      var n := 0;
      while n < |hands|
        invariant 0 <= n <= |hands|
        invariant Valid() && multiHandsCamera == multi && Config() == cfg
        invariant initialized == old(initialized)
        invariant multi != null ==>
          multi.processedFrames == old(multi.processedFrames) &&
          multi.calledBackFrames == old(multi.calledBackFrames) &&
          multi.lastDrawPoint == old(multi.lastDrawPoint)
        invariant State() == FeedAll(start, cfg, tips[..n])
        invariant Averaged(start, cfg, tips[..n]) ==> lastLinePoint.Some?
        invariant multi != null ==>
          multi.trackingPoints ==
          (if Averaged(start, cfg, tips[..n]) then Retarget(tp0, this, lastLinePoint.value) else tp0)
      {
        var tip := MirroredTip(hands[n], w, height);
        assert tips[..n + 1][..n] == tips[..n];
        FeedAllWindow(start, cfg, tips[..n]);
        ghost var lastBefore := lastLinePoint;
        TrackTip(tip);
        if multi != null && Averaged(start, cfg, tips[..n]) {
          RetargetOverrides(tp0, this, lastBefore.value, lastLinePoint.value);
        }
        n := n + 1;
      }
      assert tips[..n] == tips;
      FeedAllTracked(start, cfg, tips);
    }

    /** The body of the per-hand loop of the result callback, for one
        mirrored fingertip. */
    method TrackTip(tip: Point)
      requires Valid()
      modifies this, canvas, multiHandsCamera
      ensures Valid() && multiHandsCamera == old(multiHandsCamera) && Config() == old(Config())
      ensures State() == Feed(old(State()), old(Config()), tip)
      ensures initialized == old(initialized)
      ensures multiHandsCamera != null ==>
        multiHandsCamera.trackingPoints ==
          (if |old(lastPoints)| == lineSmoothingSteps
           then Retarget(old(multiHandsCamera.trackingPoints), this, Mean(old(lastPoints)))
           else old(multiHandsCamera.trackingPoints))
      ensures multiHandsCamera != null ==>
        multiHandsCamera.processedFrames == old(multiHandsCamera.processedFrames) &&
        multiHandsCamera.calledBackFrames == old(multiHandsCamera.calledBackFrames) &&
        multiHandsCamera.lastDrawPoint == old(multiHandsCamera.lastDrawPoint)
    {
      var multi := multiHandsCamera;
      if |lastPoints| == lineSmoothingSteps {
        var avg := Average(lastPoints);
        if drawColor != NoColor && lastLinePoint.Some? {
          if multi == null || DistanceGateOpen(multi.GetCurrentDistanceToCamera()) {
            canvas.strokes := canvas.strokes + [Stroke(lastLinePoint.value, avg, drawColor)];
          }
        }
        if !handTracked {
          handTracked := true;
        }
        if multi != null {
          multi.SetTrackingPoint(this, avg);
        }
        lastLinePoint := Some(avg);
        lastPoints := lastPoints[1..];
      }
      lastPoints := lastPoints + [tip];
    }
  }

  class MultiHandsCamera {
    const handsCameras: seq<HandsCamera>
    const drawColor: string
    const canvas: Canvas

    var trackingPoints: seq<(HandsCamera, Point)>
    var distanceToCamera: Option<real>
    var processedFrames: nat
    var calledBackFrames: seq<bool>
    var lastDrawPoint: Option<Point>

    /** One tracking entry and one flag per camera, in camera order. */
    ghost predicate Valid()
      reads this
    {
      |trackingPoints| == |handsCameras| && |calledBackFrames| == |handsCameras| &&
      forall m :: 0 <= m < |handsCameras| ==> trackingPoints[m].0 == handsCameras[m]
    }

    constructor (handsCameras: seq<HandsCamera>, drawColor: string, canvas: Canvas)
      modifies (set m | 0 <= m < |handsCameras| :: handsCameras[m])`multiHandsCamera
      ensures Valid()
      ensures this.handsCameras == handsCameras && this.drawColor == drawColor && this.canvas == canvas
      ensures trackingPoints == seq(|handsCameras|, m requires 0 <= m < |handsCameras| => (handsCameras[m], Point(0.0, 0.0)))
      ensures calledBackFrames == seq(|handsCameras|, _ => false)
      ensures processedFrames == 0 && distanceToCamera == None && lastDrawPoint == None
      ensures forall m :: 0 <= m < |handsCameras| ==> handsCameras[m].multiHandsCamera == this
      ensures forall m :: 0 <= m < |handsCameras| ==>
        old(handsCameras[m].Valid()) ==> handsCameras[m].Valid()
    {
      this.handsCameras := handsCameras;
      this.drawColor := drawColor;
      this.canvas := canvas;
      trackingPoints := [];
      distanceToCamera := None;
      processedFrames := 0;
      calledBackFrames := [];
      lastDrawPoint := None;
      new;
      Initialize();
      assert trackingPoints == seq(|handsCameras|, m requires 0 <= m < |handsCameras| => (handsCameras[m], Point(0.0, 0.0)));
    }

    /** Registers with every camera and appends one entry at (0, 0) and one
        false flag per camera. */
    method Initialize()
      modifies this`trackingPoints, this`calledBackFrames
      modifies (set m | 0 <= m < |handsCameras| :: handsCameras[m])`multiHandsCamera
      ensures trackingPoints == old(trackingPoints) +
        seq(|handsCameras|, m requires 0 <= m < |handsCameras| => (handsCameras[m], Point(0.0, 0.0)))
      ensures calledBackFrames == old(calledBackFrames) + seq(|handsCameras|, _ => false)
      ensures forall m :: 0 <= m < |handsCameras| ==> handsCameras[m].multiHandsCamera == this
      ensures forall m :: 0 <= m < |handsCameras| ==>
        old(handsCameras[m].Valid()) ==> handsCameras[m].Valid()
    {
      var n := 0;
      while n < |handsCameras|
        invariant 0 <= n <= |handsCameras|
        invariant trackingPoints == old(trackingPoints) +
          seq(n, m requires 0 <= m < n => (handsCameras[m], Point(0.0, 0.0)))
        invariant calledBackFrames == old(calledBackFrames) + seq(n, _ => false)
        invariant forall m :: 0 <= m < n ==> handsCameras[m].multiHandsCamera == this
      {
        handsCameras[n].SetMultiHandsCamera(this);
        trackingPoints := trackingPoints + [(handsCameras[n], Point(0.0, 0.0))];
        calledBackFrames := calledBackFrames + [false];
        n := n + 1;
      }
    }

    /** The distance score of the current tracking points. */
    method UpdateDistanceToCamera()
      modifies this`distanceToCamera
      ensures distanceToCamera == Some(DistanceScore(PointsOf(trackingPoints)))
    {
      var pts := PointsOf(trackingPoints);
      var dx, dy := 0.0, 0.0;
      var m := 1;
      while m < |pts|
        invariant 1 <= m && (pts != [] ==> m <= |pts|)
        invariant pts != [] ==> dx == AbsDiffX(pts[0], pts[1..m]) && dy == AbsDiffY(pts[0], pts[1..m])
        invariant pts == [] ==> dx == 0.0 && dy == 0.0
      {
        assert pts[1..m + 1][..m - 1] == pts[1..m];
        dx := dx + Abs(pts[0].x - pts[m].x);
        dy := dy + Abs(pts[0].y - pts[m].y);
        m := m + 1;
      }
      if pts != [] {
        assert pts[1..m] == pts[1..];
      }
      distanceToCamera := Some(Width + Height - dx + dy);
    }

    /** Read-and-reset of the frame counter. */
    method GetProcessedFrames() returns (frames: nat)
      modifies this`processedFrames
      ensures frames == old(processedFrames) && processedFrames == 0
    {
      frames := processedFrames;
      processedFrames := 0;
    }

    method ResetCurrentDistanceToCamera()
      modifies this`distanceToCamera
      ensures distanceToCamera == None
    {
      distanceToCamera := None;
    }

    function GetCurrentDistanceToCamera(): (d: Option<real>)
      reads this
    {
      distanceToCamera
    }

    /** Whether every camera has finished initialising. */
    method AllHandCamerasInitialized() returns (all: bool)
      ensures all <==> forall m :: 0 <= m < |handsCameras| ==> handsCameras[m].IsInitialized()
    {
      var n := 0;
      while n < |handsCameras|
        invariant 0 <= n <= |handsCameras|
        invariant forall m :: 0 <= m < n ==> handsCameras[m].IsInitialized()
      {
        if !handsCameras[n].IsInitialized() {
          return false;
        }
        n := n + 1;
      }
      return true;
    }

    /** Whether every camera has called back in this round. */
    method AllFramesCalledBack() returns (all: bool)
      ensures all <==> AllTrue(calledBackFrames)
    {
      var n := 0;
      while n < |calledBackFrames|
        invariant 0 <= n <= |calledBackFrames|
        invariant forall m :: 0 <= m < n ==> calledBackFrames[m]
      {
        if calledBackFrames[n] == false {
          return false;
        }
        n := n + 1;
      }
      return true;
    }

    /** Camera `id` delivered a frame. The frame that completes the round
        rescores the pair, strokes from the last drawn point to the centroid
        of the tracking points when drawing is on and the gate is open, clears
        every flag and counts one processed frame. */
    method FrameCalledBack(id: nat)
      requires Valid() && id < |calledBackFrames|
      modifies this`calledBackFrames, this`distanceToCamera, this`lastDrawPoint, this`processedFrames, canvas
      ensures Valid()
      ensures calledBackFrames == Arrive(old(calledBackFrames), id).flags
      ensures processedFrames == old(processedFrames) + if Arrive(old(calledBackFrames), id).fired then 1 else 0
      ensures !Arrive(old(calledBackFrames), id).fired ==>
        distanceToCamera == old(distanceToCamera) && lastDrawPoint == old(lastDrawPoint) &&
        canvas.strokes == old(canvas.strokes)
      ensures Arrive(old(calledBackFrames), id).fired ==>
        var score := DistanceScore(PointsOf(trackingPoints));
        var open := drawColor != NoColor && DistanceGateOpen(Some(score));
        var centre := Mean(PointsOf(trackingPoints));
        distanceToCamera == Some(score) &&
        lastDrawPoint == (if open then Some(centre) else old(lastDrawPoint)) &&
        canvas.strokes == if open && old(lastDrawPoint).Some?
                          then old(canvas.strokes) + [Stroke(old(lastDrawPoint).value, centre, drawColor)]
                          else old(canvas.strokes)
    {
      calledBackFrames := calledBackFrames[id := true];
      var all := AllFramesCalledBack();
      assert all <==> Arrive(old(calledBackFrames), id).fired;
      if all {
        UpdateDistanceToCamera();
        if drawColor != NoColor && DistanceGateOpen(distanceToCamera) {
          var centre := Average(PointsOf(trackingPoints));
          if lastDrawPoint.Some? {
            canvas.strokes := canvas.strokes + [Stroke(lastDrawPoint.value, centre, drawColor)];
          }
          lastDrawPoint := Some(centre);
        }
        var n := 0;
        while n < |calledBackFrames|
          modifies this`calledBackFrames
          invariant 0 <= n <= |calledBackFrames| == |handsCameras|
          invariant forall m :: 0 <= m < n ==> !calledBackFrames[m]
        {
          calledBackFrames := calledBackFrames[n := false];
          n := n + 1;
        }
        assert calledBackFrames == seq(|calledBackFrames|, _ => false);
        processedFrames := processedFrames + 1;
      }
    }

    /** The report of one camera's smoothed fingertip. */
    method SetTrackingPoint(camera: HandsCamera, p: Point)
      modifies this`trackingPoints
      ensures trackingPoints == Retarget(old(trackingPoints), camera, p)
    {
      var n := 0;
      while n < |trackingPoints|
        invariant 0 <= n <= |trackingPoints| == |old(trackingPoints)|
        invariant trackingPoints[..n] == Retarget(old(trackingPoints), camera, p)[..n]
        invariant trackingPoints[n..] == old(trackingPoints)[n..]
      {
        if trackingPoints[n].0 == camera {
          trackingPoints := trackingPoints[n := (camera, p)];
        }
        n := n + 1;
      }
    }
  }
}
