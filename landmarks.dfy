/** Hand landmarks as the hand detector delivers them: each detected hand is a
    fixed list of 21 landmarks whose coordinates are normalised to the image
    (0 is the left or top edge, 1 the right or bottom edge). Coordinates are
    modelled as exact reals. */
module Landmarks {

  datatype Option<T> = None | Some(value: T)

  /** One normalised landmark; the depth component is never read here. */
  datatype Landmark = Landmark(x: real, y: real)

  /** Number of landmarks in one hand skeleton. */
  const LandmarkCount: nat := 21

  /** Index of the index-finger tip (INDEX_FINGER_TIP, `landmarks[8]`). */
  const IndexFingerTip: nat := 8

  /** A detected hand: exactly LandmarkCount landmarks, in the detector's order. */
  type Hand = h: seq<Landmark> | |h| == LandmarkCount
    witness seq(LandmarkCount, _ => Landmark(0.0, 0.0))

  /** The control landmark that both programs track. */
  function Tip(h: Hand): (p: Landmark)
    ensures p in h
  {
    h[IndexFingerTip]
  }
}
