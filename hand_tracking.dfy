/** The per-frame depth-gated compositor of the Kinect hand tracker: raw
    depth normalisation, fingertip sampling, the depth band gate, canvas
    composition and the final fixed translation.

    A depth frame is an `array2<int>` indexed [row, column]; the output canvas
    is an `array3<int>` indexed [row, column, channel] with three channels,
    holding unsigned 8-bit values. */
module HandTracking {
  import opened Landmarks

  /** Width and height used to denormalise landmark coordinates. */
  const DepthWidth: int := 640
  const DepthHeight: int := 480

  /** Largest raw sample kept by the normaliser (2^10 - 1). */
  const MaxRawDepth: int := 1023

  /** The gate's open depth band. */
  const BandLow: int := 630
  const BandHigh: int := 670

  /** The translation applied to the finished canvas: columns, then rows. */
  const ShiftColumns: int := 20
  const ShiftRows: int := 110

  /** Value of every channel of a freshly filled canvas. */
  const White: int := 255

  // ---------------------------------------------------------------------
  // Depth normaliser

  /** Clamp v into [lo, hi]. */
  function Clip(v: int, lo: int, hi: int): (r: int)
    requires lo <= hi
    ensures lo <= r <= hi
    ensures lo <= v <= hi ==> r == v
    ensures v < lo ==> r == lo
    ensures hi < v ==> r == hi
  {
    if v < lo then lo else if hi < v then hi else v
  }

  /** One sample after clipping to [0, 1023] and shifting right by two bits. */
  function PrettyValue(v: int): (r: int)
    ensures 0 <= r <= 255
    ensures v >= MaxRawDepth ==> r == 255
    ensures v <= 0 ==> r == 0
    ensures 0 <= v <= MaxRawDepth ==> 4 * r <= v < 4 * r + 4
  {
    Clip(v, 0, MaxRawDepth) / 4
  }

  /** Larger raw depth never normalises to a smaller value. */
  lemma PrettyValueMonotone(v: int, w: int)
    requires v <= w
    ensures PrettyValue(v) <= PrettyValue(w)
  {
  }

  /** The normaliser: clips `depth` in place, shifts it in place, and returns an
      8-bit copy. The copy's truncation to 8 bits loses nothing, because every
      shifted value is already at most 255. */
  method PrettyDepth(depth: array2<int>) returns (pretty: array2<int>)
    modifies depth
    ensures forall i, j :: 0 <= i < depth.Length0 && 0 <= j < depth.Length1 ==>
      depth[i, j] == PrettyValue(old(depth[i, j]))
    ensures fresh(pretty)
    ensures pretty.Length0 == depth.Length0 && pretty.Length1 == depth.Length1
    ensures forall i, j :: 0 <= i < depth.Length0 && 0 <= j < depth.Length1 ==>
      pretty[i, j] == depth[i, j] && 0 <= pretty[i, j] <= 255
  {
    forall i, j | 0 <= i < depth.Length0 && 0 <= j < depth.Length1 {
      depth[i, j] := Clip(depth[i, j], 0, MaxRawDepth);
    }
    forall i, j | 0 <= i < depth.Length0 && 0 <= j < depth.Length1 {
      depth[i, j] := depth[i, j] / 4;
    }
    pretty := new int[depth.Length0, depth.Length1]((i, j)
      requires 0 <= i < depth.Length0 && 0 <= j < depth.Length1
      reads depth
      => depth[i, j] % 256);
  }

  // ---------------------------------------------------------------------
  // Gating evaluator

  /** Python's `round` on a real: the nearest integer, ties to the even one. */
  function PyRound(v: real): (r: int)
    ensures v - 0.5 <= r as real <= v + 0.5
    ensures (r as real == v - 0.5 || r as real == v + 0.5) ==> r % 2 == 0
  {
    var f := v.Floor;
    var frac := v - f as real;
    if frac < 0.5 then f
    else if frac > 0.5 then f + 1
    else if f % 2 == 0 then f
    else f + 1
  }

  /** The two properties of PyRound pin down a unique integer. */
  lemma PyRoundUnique(v: real, n: int)
    requires v - 0.5 <= n as real <= v + 0.5
    requires (n as real == v - 0.5 || n as real == v + 0.5) ==> n % 2 == 0
    ensures n == PyRound(v)
  {
  }

  /** The fingertip pixel `(row, column)`: `round(y * 480)`, `round(x * 640)`.
      Nothing clamps it. */
  function TipPixel(h: Hand): (p: (int, int))
    ensures -0.5 <= p.0 as real - Tip(h).y * DepthHeight as real <= 0.5
    ensures -0.5 <= p.1 as real - Tip(h).x * DepthWidth as real <= 0.5
  {
    (PyRound(Tip(h).y * DepthHeight as real), PyRound(Tip(h).x * DepthWidth as real))
  }

  /** Python sequence indexing of an axis of length n: a negative index counts
      from the end; anything outside [-n, n) raises IndexError (None). */
  function PyIndex(i: int, n: nat): (r: Option<nat>)
    ensures r.Some? <==> -(n as int) <= i < n
    ensures r.Some? ==> r.value < n
    ensures r.Some? && 0 <= i ==> r.value == i
    ensures r.Some? && i < 0 ==> r.value == n + i
  {
    if 0 <= i < n then Some(i)
    else if -(n as int) <= i < 0 then Some(n + i)
    else None
  }

  /** `depth[yTip][xTip]`, or None when either index raises IndexError. */
  function SampleTip(depth: array2<int>, h: Hand): (d: Option<int>)
    reads depth
    ensures d.Some? <==>
      (-depth.Length0 <= TipPixel(h).0 < depth.Length0 &&
       -depth.Length1 <= TipPixel(h).1 < depth.Length1)
    ensures d.Some? && 0 <= TipPixel(h).0 && 0 <= TipPixel(h).1 ==>
      d.value == depth[TipPixel(h).0, TipPixel(h).1]
    ensures d.Some? ==>
      d.value == depth[PyIndex(TipPixel(h).0, depth.Length0).value,
                       PyIndex(TipPixel(h).1, depth.Length1).value]
  {
    var (row, col) := TipPixel(h);
    match PyIndex(row, depth.Length0)
    case None => None
    case Some(r) =>
      match PyIndex(col, depth.Length1)
      case None => None
      case Some(c) => Some(depth[r, c])
  }

  /** The gate: the open band (630, 670). */
  predicate InBand(d: int) {
    BandLow < d && d < BandHigh
  }

  /** Both band limits are rejected, everything strictly between accepted. */
  lemma GateBoundaries()
    ensures !InBand(BandLow) && !InBand(BandHigh)
    ensures InBand(BandLow + 1) && InBand(BandHigh - 1) && InBand(650)
  {
  }

  /** A hand is accepted when its fingertip could be sampled and the sample
      lies in the band. */
  predicate Accepts(depth: array2<int>, h: Hand)
    reads depth
  {
    match SampleTip(depth, h)
    case Some(d) => InBand(d)
    case None => false
  }

  // ---------------------------------------------------------------------
  // Compositor, as values

  /** The skeleton drawing routine, seen per channel: the value it leaves in
      channel k of pixel (i, j), given the hand and that channel's previous
      value. */
  type Brush = (Hand, int, int, int, int) -> int

  /** Channel k of pixel (i, j) after the hands are handled in order on a
      canvas whose channels all started at `start`: an accepted hand draws over
      it, a rejected one zeroes it. */
  function Composite(start: int, depth: array2<int>, hands: seq<Hand>, draw: Brush,
                     i: int, j: int, k: int): (v: int)
    reads depth
    decreases |hands|
  {
    if hands == [] then start
    else
      var before := Composite(start, depth, hands[..|hands| - 1], draw, i, j, k);
      var h := hands[|hands| - 1];
      if Accepts(depth, h) then draw(h, i, j, k, before) else 0
  }

  /** Drawing every hand in order, with no gate: the reference for a frame in
      which every hand is accepted. */
  function DrawAll(start: int, hands: seq<Hand>, draw: Brush, i: int, j: int, k: int): (v: int)
    decreases |hands|
  {
    if hands == [] then start
    else draw(hands[|hands| - 1], i, j, k, DrawAll(start, hands[..|hands| - 1], draw, i, j, k))
  }

  /** What the last rejected hand leaves is all that matters: the result is the
      suffix after it, drawn on a zeroed canvas. */
  lemma {:induction false} LastRejectDecides(start: int, depth: array2<int>, hands: seq<Hand>,
                                             r: nat, draw: Brush, i: int, j: int, k: int)
    requires r < |hands| && !Accepts(depth, hands[r])
    ensures Composite(start, depth, hands, draw, i, j, k)
         == Composite(0, depth, hands[r + 1..], draw, i, j, k)
    decreases |hands|
  {
    if r < |hands| - 1 {
      var front := hands[..|hands| - 1];
      LastRejectDecides(start, depth, front, r, draw, i, j, k);
      assert front[r + 1..] == hands[r + 1..][..|hands[r + 1..]| - 1];
    } else {
      assert hands[r + 1..] == [];
    }
  }

  /** A rejected last hand leaves every channel at 0. */
  lemma RejectLastBlanks(start: int, depth: array2<int>, hands: seq<Hand>,
                         draw: Brush, i: int, j: int, k: int)
    requires hands != [] && !Accepts(depth, hands[|hands| - 1])
    ensures Composite(start, depth, hands, draw, i, j, k) == 0
  {
    LastRejectDecides(start, depth, hands, |hands| - 1, draw, i, j, k);
  }

  /** When every hand is accepted, the depth frame plays no further part: the
      canvas is the plain drawing of all hands. */
  lemma {:induction false} AllAcceptedDraws(start: int, depth: array2<int>, hands: seq<Hand>,
                                            draw: Brush, i: int, j: int, k: int)
    requires forall m :: 0 <= m < |hands| ==> Accepts(depth, hands[m])
    ensures Composite(start, depth, hands, draw, i, j, k) == DrawAll(start, hands, draw, i, j, k)
    decreases |hands|
  {
    if hands != [] {
      AllAcceptedDraws(start, depth, hands[..|hands| - 1], draw, i, j, k);
    }
  }

  /** Channel k of output pixel (i, j) of a whole frame: the composite shifted
      by (ShiftRows, ShiftColumns), with 0 in the vacated band. */
  function FramePixel(depth: array2<int>, hands: seq<Hand>, draw: Brush, i: int, j: int, k: int): (v: int)
    reads depth
  {
    if ShiftRows <= i && ShiftColumns <= j
    then Composite(White, depth, hands, draw, i - ShiftRows, j - ShiftColumns, k)
    else 0
  }

  /** With no hand, the frame is the white canvas translated, whatever the
      depth frame holds. */
  lemma NoHandFrame(depth: array2<int>, draw: Brush, i: int, j: int, k: int)
    ensures FramePixel(depth, [], draw, i, j, k)
         == if ShiftRows <= i && ShiftColumns <= j then White else 0
  {
  }

  /** The accept scenario: depth 650 under a fingertip at (0.5, 0.5) of a
      640x480 frame; the single hand is drawn on white and shifted. */
  lemma AcceptScenario(depth: array2<int>, h: Hand, draw: Brush, i: int, j: int, k: int)
    requires depth.Length0 == DepthHeight && depth.Length1 == DepthWidth
    requires Tip(h) == Landmark(0.5, 0.5) && depth[240, 320] == 650
    ensures TipPixel(h) == (240, 320) && Accepts(depth, h)
    ensures FramePixel(depth, [h], draw, i, j, k)
         == if ShiftRows <= i && ShiftColumns <= j
            then draw(h, i - ShiftRows, j - ShiftColumns, k, White) else 0
  {
    PyRoundUnique(0.5 * DepthHeight as real, 240);
    PyRoundUnique(0.5 * DepthWidth as real, 320);
    assert [h][..0] == [];
    assert Composite(White, depth, [h], draw, i - ShiftRows, j - ShiftColumns, k)
        == draw(h, i - ShiftRows, j - ShiftColumns, k, White);
  }

  /** The reject scenario: the same hand over a depth of 700 gives a fully
      black frame. */
  lemma RejectScenario(depth: array2<int>, h: Hand, draw: Brush, i: int, j: int, k: int)
    requires depth.Length0 == DepthHeight && depth.Length1 == DepthWidth
    requires Tip(h) == Landmark(0.5, 0.5) && depth[240, 320] == 700
    ensures !Accepts(depth, h)
    ensures FramePixel(depth, [h], draw, i, j, k) == 0
  {
    PyRoundUnique(0.5 * DepthHeight as real, 240);
    PyRoundUnique(0.5 * DepthWidth as real, 320);
  }

  /** A fingertip just left of the frame samples the rightmost column, because
      Python reads a negative index from the end. */
  lemma NegativeColumnWraps(depth: array2<int>, h: Hand)
    requires depth.Length0 == DepthHeight && depth.Length1 == DepthWidth
    requires Tip(h) == Landmark(-1.0 / 640.0, 0.5)
    ensures TipPixel(h) == (240, -1)
    ensures SampleTip(depth, h) == Some(depth[240, DepthWidth - 1])
  {
    PyRoundUnique(0.5 * DepthHeight as real, 240);
    PyRoundUnique(-1.0 / 640.0 * DepthWidth as real, -1);
  }

  // ---------------------------------------------------------------------
  // Compositor, on arrays

  /** `canvas.fill(v)`. */
  method Fill(canvas: array3<int>, v: int)
    modifies canvas
    ensures forall i, j, k :: 0 <= i < canvas.Length0 && 0 <= j < canvas.Length1 && 0 <= k < canvas.Length2 ==>
      canvas[i, j, k] == v
  {
    forall i, j, k | 0 <= i < canvas.Length0 && 0 <= j < canvas.Length1 && 0 <= k < canvas.Length2 {
      canvas[i, j, k] := v;
    }
  }

  /** `canvas *= factor` on unsigned 8-bit channels. */
  method Scale(canvas: array3<int>, factor: int)
    modifies canvas
    ensures forall i, j, k :: 0 <= i < canvas.Length0 && 0 <= j < canvas.Length1 && 0 <= k < canvas.Length2 ==>
      canvas[i, j, k] == (old(canvas[i, j, k]) * factor) % 256
  {
    forall i, j, k | 0 <= i < canvas.Length0 && 0 <= j < canvas.Length1 && 0 <= k < canvas.Length2 {
      canvas[i, j, k] := (canvas[i, j, k] * factor) % 256;
    }
  }

  /** The skeleton drawing routine: it writes into the canvas and nowhere else. */
  method DrawLandmarks(canvas: array3<int>, h: Hand, draw: Brush)
    modifies canvas
    ensures forall i, j, k :: 0 <= i < canvas.Length0 && 0 <= j < canvas.Length1 && 0 <= k < canvas.Length2 ==>
      canvas[i, j, k] == draw(h, i, j, k, old(canvas[i, j, k]))
  {
    forall i, j, k | 0 <= i < canvas.Length0 && 0 <= j < canvas.Length1 && 0 <= k < canvas.Length2 {
      canvas[i, j, k] := draw(h, i, j, k, canvas[i, j, k]);
    }
  }

  /** The affine warp by (+ShiftColumns, +ShiftRows) into a canvas of the same
      size, with a constant 0 border. */
  method Translate(src: array3<int>) returns (dst: array3<int>)
    ensures fresh(dst)
    ensures dst.Length0 == src.Length0 && dst.Length1 == src.Length1 && dst.Length2 == src.Length2
    ensures forall i, j, k :: 0 <= i < dst.Length0 && 0 <= j < dst.Length1 && 0 <= k < dst.Length2 ==>
      dst[i, j, k] == if ShiftRows <= i && ShiftColumns <= j then src[i - ShiftRows, j - ShiftColumns, k] else 0
  {
    dst := new int[src.Length0, src.Length1, src.Length2]((i, j, k)
      requires 0 <= i < src.Length0 && 0 <= j < src.Length1 && 0 <= k < src.Length2
      reads src
      => if ShiftRows <= i && ShiftColumns <= j then src[i - ShiftRows, j - ShiftColumns, k] else 0);
  }

  /** One pass of the frame loop, from the raw depth frame and the detected
      hands to the canvas handed to the display. `fault` is an IndexError while
      sampling a fingertip, which ends the program. */
  method ProcessFrame(depth: array2<int>, hands: seq<Hand>, draw: Brush)
    returns (out: array3<int>, fault: bool)
    ensures fault <==> exists m :: 0 <= m < |hands| && SampleTip(depth, hands[m]).None?
    ensures !fault ==> fresh(out)
    ensures !fault ==> out.Length0 == depth.Length0 && out.Length1 == depth.Length1 && out.Length2 == 3
    ensures !fault ==> forall i, j, k :: 0 <= i < out.Length0 && 0 <= j < out.Length1 && 0 <= k < 3 ==>
      out[i, j, k] == FramePixel(depth, hands, draw, i, j, k)
  {
    var canvas := new int[depth.Length0, depth.Length1, 3]((i, j, k)
      requires 0 <= i < depth.Length0 && 0 <= j < depth.Length1
      reads depth
      => depth[i, j] % 256);
    Fill(canvas, White);
    fault := false;
    var n := 0;
    while n < |hands|
      invariant 0 <= n <= |hands|
      invariant forall m :: 0 <= m < n ==> SampleTip(depth, hands[m]).Some?
      invariant forall i, j, k :: 0 <= i < canvas.Length0 && 0 <= j < canvas.Length1 && 0 <= k < 3 ==>
        canvas[i, j, k] == Composite(White, depth, hands[..n], draw, i, j, k)
    {
      var h := hands[n];
      var d := SampleTip(depth, h);
      if d.None? {
        fault := true;
        out := canvas;
        return;
      }
      if InBand(d.value) {
        DrawLandmarks(canvas, h, draw);
      } else {
        Scale(canvas, 0);
      }
      assert hands[..n + 1][..n] == hands[..n];
      n := n + 1;
    }
    assert hands[..n] == hands;
    out := Translate(canvas);
  }
}
