/** `get_masker`: which mask a fitted masker is built on, and how a
    `target_affine` argument is turned into the matrix the resampling step
    receives. */
module Masking {

  datatype Option<T> = None | Some(value: T)

  /** A matrix as a sequence of rows. */
  type Matrix = seq<seq<real>>

  /** A `target_affine` argument, by its number of dimensions (`np.ndim`):
      a scalar, a vector, or a 2-D matrix. */
  datatype TargetAffine = Scalar(s: real) | Vector(v: seq<real>) | Array(m: Matrix)

  /** `m` is the square matrix with `d` on its diagonal and zeros elsewhere. */
  predicate IsDiagonalOf(m: Matrix, d: seq<real>)
  {
    |m| == |d| &&
    forall i | 0 <= i < |m| ::
      |m[i]| == |d| && forall j | 0 <= j < |d| :: m[i][j] == if i == j then d[i] else 0.0
  }

  /** `np.eye(n)`. */
  function Eye(n: nat): (m: Matrix)
    ensures |m| == n
    ensures forall i | 0 <= i < n :: |m[i]| == n
    ensures forall i, j | 0 <= i < n && 0 <= j < n :: m[i][j] == if i == j then 1.0 else 0.0
  {
    seq(n, i => seq(n, j => if i == j then 1.0 else 0.0))
  }

  /** `m * s`, element by element. */
  function Scale(m: Matrix, s: real): (r: Matrix)
    ensures |r| == |m|
    ensures forall i | 0 <= i < |m| :: |r[i]| == |m[i]|
    ensures forall i, j | 0 <= i < |m| && 0 <= j < |m[i]| :: r[i][j] == m[i][j] * s
  {
    seq(|m|, i requires 0 <= i < |m| => seq(|m[i]|, j requires 0 <= j < |m[i]| => m[i][j] * s))
  }

  /** `np.diag(d)` for a vector `d`. */
  function Diag(d: seq<real>): (m: Matrix)
    ensures IsDiagonalOf(m, d)
  {
    seq(|d|, i requires 0 <= i < |d| => seq(|d|, j requires 0 <= j < |d| => if i == j then d[i] else 0.0))
  }

  /** The diagonal of a square matrix: the inverse of `Diag`, against which
      `DiagRoundTrip` checks it. */
  function Diagonal(m: Matrix): (d: seq<real>)
    requires forall i | 0 <= i < |m| :: |m[i]| == |m|
    ensures |d| == |m|
    ensures forall i | 0 <= i < |m| :: d[i] == m[i][i]
  {
    seq(|m|, i requires 0 <= i < |m| => m[i][i])
  }

  /** A diagonal matrix is determined by its diagonal. */
  lemma DiagonalDetermines(m: Matrix, n: Matrix, d: seq<real>)
    requires IsDiagonalOf(m, d) && IsDiagonalOf(n, d)
    ensures m == n
  {
    forall i | 0 <= i < |m|
      ensures m[i] == n[i]
    {
      assert |m[i]| == |n[i]|;
      assert forall j | 0 <= j < |d| :: m[i][j] == n[i][j];
    }
  }

  /** Reading the diagonal back out of `np.diag(d)` gives `d`. */
  lemma DiagRoundTrip(d: seq<real>)
    ensures Diagonal(Diag(d)) == d
  {
    var m := Diag(d);
    assert forall i | 0 <= i < |d| :: Diagonal(m)[i] == d[i];
  }

  /** The `target_affine` branch of `get_masker`: a scalar `s` becomes
      `np.eye(3) * s`, a vector `v` becomes `np.diag(v)`, and a 2-D matrix is
      used as it is, whatever its size. */
  function NormalizeTargetAffine(t: TargetAffine): (m: Matrix)
    ensures t.Scalar? ==> IsDiagonalOf(m, [t.s, t.s, t.s])
    ensures t.Vector? ==> IsDiagonalOf(m, t.v)
    ensures t.Array? ==> m == t.m
  {
    match t
    case Scalar(s) => Scale(Eye(3), s)
    case Vector(v) => Diag(v)
    case Array(m) => m
  }

  /** A scalar resolution `s` means the same as the vector `(s, s, s)`. */
  lemma ScalarIsUniformVector(s: real)
    ensures NormalizeTargetAffine(Scalar(s)) == NormalizeTargetAffine(Vector([s, s, s]))
  {
    DiagonalDetermines(NormalizeTargetAffine(Scalar(s)), NormalizeTargetAffine(Vector([s, s, s])), [s, s, s]);
  }

  /** A fitted `NiftiMasker`, reduced to the mask image it was fitted on
      (`mask_img_`). */
  datatype Masker<I> = Masker(maskImg: I)

  /** What a caller may pass as `mask_img`: nothing, a mask image, or an
      already fitted masker. */
  datatype MaskArg<I> = NoMask | MaskImage(img: I) | Fitted(masker: Masker<I>)

  /** The optional resampling step of `get_masker`: with no `target_affine`
      the image is kept, otherwise it is resampled to the normalised matrix.
      `resample` stands for nearest-neighbour resampling by the imaging
      library. */
  function Resampled<I>(img: I, targetAffine: Option<TargetAffine>, resample: (I, Matrix) -> I): (r: I)
    ensures targetAffine.None? ==> r == img
    ensures targetAffine.Some? ==> r == resample(img, NormalizeTargetAffine(targetAffine.value))
  {
    match targetAffine
    case None => img
    case Some(t) => resample(img, NormalizeTargetAffine(t))
  }

  /** `get_masker(mask_img, target_affine)`. `mni` stands for the bundled
      MNI152 brain mask. A masker that is passed in is returned as it is and
      `target_affine` is then ignored; otherwise a masker is fitted on the
      given mask, or on the MNI152 mask when none is given, after the
      optional resampling. */
  function GetMasker<I>(mask: MaskArg<I>, targetAffine: Option<TargetAffine>, mni: I,
                        resample: (I, Matrix) -> I): (masker: Masker<I>)
    ensures mask.Fitted? ==> masker == mask.masker
    ensures mask.NoMask? ==> masker.maskImg == Resampled(mni, targetAffine, resample)
    ensures mask.MaskImage? ==> masker.maskImg == Resampled(mask.img, targetAffine, resample)
  {
    match mask
    case Fitted(m) => m
    case NoMask => Masker(Resampled(mni, targetAffine, resample))
    case MaskImage(img) => Masker(Resampled(img, targetAffine, resample))
  }

  /** Handing a masker built by `get_masker` back to `get_masker`, whatever
      `target_affine` comes with it, gives that same masker: its mask is not
      resampled a second time. */
  lemma MaskerIsStable<I>(mask: MaskArg<I>, targetAffine: Option<TargetAffine>,
                          again: Option<TargetAffine>, mni: I, resample: (I, Matrix) -> I)
    ensures GetMasker(Fitted(GetMasker(mask, targetAffine, mni, resample)), again, mni, resample)
         == GetMasker(mask, targetAffine, mni, resample)
  {
  }
}
