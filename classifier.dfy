/**
 * The NDVI density classifier of app.py: the four fixed thresholds, the
 * point label (the nested conditional of `classify_point`) and the raster
 * mask form (`dense`, `moderate`, `sparse`, `nonveg`), with the proof that
 * the two forms agree and partition the value domain.
 *
 * NDVI values are modelled as finite `real`s: the classifier only compares
 * them against constants. A NaN value is not modelled.
 */
module Classifier {

  /** The four vegetation-density classes, listed from lowest to highest. */
  datatype Class = BuiltUp | Sparse | Moderate | Dense

  /** Position of a class in the order Built-up < Sparse < Moderate < Dense. */
  function Rank(c: Class): nat
  {
    match c
    case BuiltUp => 0
    case Sparse => 1
    case Moderate => 2
    case Dense => 3
  }

  /** The thresholds; each class band is open below and closed above. */
  const DenseAbove: real := 0.6
  const ModerateAbove: real := 0.4
  const SparseAbove: real := 0.2

  /**
   * The point label: the nested if-chain of `classify_point`, which tests
   * `v > 0.6`, then `v > 0.4`, then `v > 0.2`, and otherwise says Built-up.
   */
  function Label(v: real): (c: Class)
    ensures c == Dense <==> v > DenseAbove
    ensures c == Moderate <==> ModerateAbove < v <= DenseAbove
    ensures c == Sparse <==> SparseAbove < v <= ModerateAbove
    ensures c == BuiltUp <==> v <= SparseAbove
  {
    if v > DenseAbove then Dense
    else if v > ModerateAbove then Moderate
    else if v > SparseAbove then Sparse
    else BuiltUp
  }

  /** The exact boundary values fall into the lower of the two bands they separate. */
  lemma ThresholdValues()
    ensures Label(DenseAbove) == Moderate
    ensures Label(ModerateAbove) == Sparse
    ensures Label(SparseAbove) == BuiltUp
  {
  }

  /** Any value above a threshold, up to the next one, is exactly one class higher. */
  lemma StepAboveThreshold(t: real, e: real)
    requires t == SparseAbove || t == ModerateAbove || t == DenseAbove
    requires 0.0 < e <= 0.2
    ensures Rank(Label(t + e)) == Rank(Label(t)) + 1
  {
  }

  /** A larger NDVI value never receives a lower class. */
  lemma LabelMonotone(v: real, w: real)
    requires v <= w
    ensures Rank(Label(v)) <= Rank(Label(w))
  {
  }

  // ------------------------------------------------------------------
  // Raster form
  // ------------------------------------------------------------------

  /** A single-band image: one NDVI value per pixel, in a fixed pixel order. */
  type Image = seq<real>

  /** A boolean image: one flag per pixel. */
  type BoolImage = seq<bool>

  /** `image.gt(t)`: the pixels whose value is strictly above `t`. */
  function Gt(img: Image, t: real): (m: BoolImage)
    ensures |m| == |img|
  {
    seq(|img|, i requires 0 <= i < |img| => img[i] > t)
  }

  /** `image.lte(t)`: the pixels whose value is at most `t`. */
  function Lte(img: Image, t: real): (m: BoolImage)
    ensures |m| == |img|
  {
    seq(|img|, i requires 0 <= i < |img| => img[i] <= t)
  }

  /** `a.And(b)`: pixel-wise conjunction of two boolean images of one size. */
  function And(a: BoolImage, b: BoolImage): (m: BoolImage)
    requires |a| == |b|
    ensures |m| == |a|
  {
    seq(|a|, i requires 0 <= i < |a| => a[i] && b[i])
  }

  /** The four class masks of one composite image. */
  datatype Layers = Layers(dense: BoolImage, moderate: BoolImage, sparse: BoolImage, nonveg: BoolImage)
  {
    /** The mask that belongs to class `c`. */
    function Layer(c: Class): BoolImage
    {
      match c
      case Dense => dense
      case Moderate => moderate
      case Sparse => sparse
      case BuiltUp => nonveg
    }
  }

  /**
   * The raster classification: the four masks built from `gt`, `lte` and
   * `And` on the composite image. Every pixel is set in exactly one mask,
   * and that mask is the one of the class the point label gives its value.
   */
  function ClassifyRaster(img: Image): (l: Layers)
    ensures |l.dense| == |l.moderate| == |l.sparse| == |l.nonveg| == |img|
    ensures forall i, c :: 0 <= i < |img| ==> (l.Layer(c)[i] <==> c == Label(img[i]))
  {
    Layers(
      Gt(img, DenseAbove),
      And(Gt(img, ModerateAbove), Lte(img, DenseAbove)),
      And(Gt(img, SparseAbove), Lte(img, ModerateAbove)),
      Lte(img, SparseAbove))
  }

  /** The pixels a mask keeps once masked by itself (`mask.selfMask()`). */
  function Kept(m: BoolImage): set<nat>
  {
    set i: nat | i < |m| && m[i]
  }

  /**
   * The four self-masked class layers split the pixels of the image: no
   * pixel is in two of them and every pixel is in one.
   */
  lemma RasterPartition(img: Image)
    ensures var l := ClassifyRaster(img);
      && Kept(l.dense) * Kept(l.moderate) == {}
      && Kept(l.dense) * Kept(l.sparse) == {}
      && Kept(l.dense) * Kept(l.nonveg) == {}
      && Kept(l.moderate) * Kept(l.sparse) == {}
      && Kept(l.moderate) * Kept(l.nonveg) == {}
      && Kept(l.sparse) * Kept(l.nonveg) == {}
      && forall i: nat :: i in Kept(l.dense) + Kept(l.moderate) + Kept(l.sparse) + Kept(l.nonveg) <==> i < |img|
  {
  }

  /** One pixel's view of the masks: its four flags are pairwise exclusive and one is set. */
  lemma PixelMasksExactlyOne(img: Image, i: nat)
    requires i < |img|
    ensures var l := ClassifyRaster(img);
      && (l.dense[i] || l.moderate[i] || l.sparse[i] || l.nonveg[i])
      && !(l.dense[i] && l.moderate[i]) && !(l.dense[i] && l.sparse[i])
      && !(l.dense[i] && l.nonveg[i]) && !(l.moderate[i] && l.sparse[i])
      && !(l.moderate[i] && l.nonveg[i]) && !(l.sparse[i] && l.nonveg[i])
  {
  }
}
