/** `coords_to_peaks_arr` and `coords_to_peaks_img`: a zero array shaped like
    the mask, incremented in place by 1 at every kept voxel. */
module Peaks {
  import opened Seqs
  import opened Voxels

  /** A dense volume as a value: planes of rows of voxel values. */
  type Volume = seq<seq<seq<real>>>

  predicate HasShape(g: Volume, shape: Shape)
  {
    |g| == shape.ni &&
    forall i | 0 <= i < |g| ::
      |g[i]| == shape.nj && forall j | 0 <= j < |g[i]| :: |g[i][j]| == shape.nk
  }

  /** The peak map of a list of voxel indices: the value at each voxel is the
      number of times that voxel occurs in the list. */
  function PeakMap(voxels: seq<Voxel>, shape: Shape): (g: Volume)
    ensures HasShape(g, shape)
  {
    seq(shape.ni, i =>
      seq(shape.nj, j =>
        seq(shape.nk, k => multiset(voxels)[Voxel(i, j, k)] as real)))
  }

  function PlaneTotal(plane: seq<seq<real>>): real
  {
    Sum(seq(|plane|, j requires 0 <= j < |plane| => Sum(plane[j])))
  }

  /** The sum of every value of a volume (`arr.sum()`). */
  function Total(g: Volume): real
  {
    Sum(seq(|g|, i requires 0 <= i < |g| => PlaneTotal(g[i])))
  }

  lemma PlaneAdd(a: seq<seq<real>>, b: seq<seq<real>>, c: seq<seq<real>>)
    requires |a| == |b| == |c|
    requires forall j | 0 <= j < |c| :: |a[j]| == |b[j]| == |c[j]|
    requires forall j, k | 0 <= j < |c| && 0 <= k < |c[j]| :: c[j][k] == a[j][k] + b[j][k]
    ensures PlaneTotal(c) == PlaneTotal(a) + PlaneTotal(b)
  {
    forall j | 0 <= j < |c|
      ensures Sum(c[j]) == Sum(a[j]) + Sum(b[j])
    {
      SumAdd(a[j], b[j], c[j]);
    }
    SumAdd(seq(|a|, j requires 0 <= j < |a| => Sum(a[j])),
           seq(|b|, j requires 0 <= j < |b| => Sum(b[j])),
           seq(|c|, j requires 0 <= j < |c| => Sum(c[j])));
  }

  /** The total of a voxel-wise sum of two volumes of one shape is the sum of their totals. */
  lemma TotalAdd(a: Volume, b: Volume, c: Volume, shape: Shape)
    requires HasShape(a, shape) && HasShape(b, shape) && HasShape(c, shape)
    requires forall i, j, k | 0 <= i < shape.ni && 0 <= j < shape.nj && 0 <= k < shape.nk ::
      c[i][j][k] == a[i][j][k] + b[i][j][k]
    ensures Total(c) == Total(a) + Total(b)
  {
    forall i | 0 <= i < |c|
      ensures PlaneTotal(c[i]) == PlaneTotal(a[i]) + PlaneTotal(b[i])
    {
      PlaneAdd(a[i], b[i], c[i]);
    }
    SumAdd(seq(|a|, i requires 0 <= i < |a| => PlaneTotal(a[i])),
           seq(|b|, i requires 0 <= i < |b| => PlaneTotal(b[i])),
           seq(|c|, i requires 0 <= i < |c| => PlaneTotal(c[i])));
  }

  lemma PlaneZero(plane: seq<seq<real>>)
    requires forall j, k | 0 <= j < |plane| && 0 <= k < |plane[j]| :: plane[j][k] == 0.0
    ensures PlaneTotal(plane) == 0.0
  {
    forall j | 0 <= j < |plane|
      ensures Sum(plane[j]) == 0.0
    {
      SumZero(plane[j]);
    }
    SumZero(seq(|plane|, j requires 0 <= j < |plane| => Sum(plane[j])));
  }

  lemma TotalZero(g: Volume)
    requires forall i, j, k | 0 <= i < |g| && 0 <= j < |g[i]| && 0 <= k < |g[i][j]| :: g[i][j][k] == 0.0
    ensures Total(g) == 0.0
  {
    forall i | 0 <= i < |g|
      ensures PlaneTotal(g[i]) == 0.0
    {
      PlaneZero(g[i]);
    }
    SumZero(seq(|g|, i requires 0 <= i < |g| => PlaneTotal(g[i])));
  }

  lemma PlaneSingle(plane: seq<seq<real>>, j0: nat, k0: nat)
    requires j0 < |plane| && k0 < |plane[j0]|
    requires forall j, k | 0 <= j < |plane| && 0 <= k < |plane[j]| && (j, k) != (j0, k0) ::
      plane[j][k] == 0.0
    ensures PlaneTotal(plane) == plane[j0][k0]
  {
    forall j | 0 <= j < |plane| && j != j0
      ensures Sum(plane[j]) == 0.0
    {
      SumZero(plane[j]);
    }
    SumSingle(plane[j0], k0);
    SumSingle(seq(|plane|, j requires 0 <= j < |plane| => Sum(plane[j])), j0);
  }

  /** A volume that is zero except at one voxel totals the value at that voxel. */
  lemma TotalSingle(g: Volume, v: Voxel)
    requires 0 <= v.i < |g| && 0 <= v.j < |g[v.i]| && 0 <= v.k < |g[v.i][v.j]|
    requires forall i, j, k | 0 <= i < |g| && 0 <= j < |g[i]| && 0 <= k < |g[i][j]| &&
      Voxel(i, j, k) != v :: g[i][j][k] == 0.0
    ensures Total(g) == g[v.i][v.j][v.k]
  {
    forall i | 0 <= i < |g| && i != v.i
      ensures PlaneTotal(g[i]) == 0.0
    {
      PlaneZero(g[i]);
    }
    PlaneSingle(g[v.i], v.j, v.k);
    SumSingle(seq(|g|, i requires 0 <= i < |g| => PlaneTotal(g[i])), v.i);
  }

  /** Duplicates add up: when every voxel lies in the grid, the peak map
      totals the number of voxels, repeated ones included. */
  lemma {:induction false} PeakMapTotal(voxels: seq<Voxel>, shape: Shape)
    requires forall v | v in voxels :: InGrid(v, shape)
    ensures Total(PeakMap(voxels, shape)) == |voxels| as real
  {
    if voxels == [] {
      TotalZero(PeakMap(voxels, shape));
    } else {
      var init, last := voxels[..|voxels| - 1], voxels[|voxels| - 1];
      assert voxels == init + [last];
      assert forall v | v in init :: v in voxels;
      PeakMapTotal(init, shape);
      assert last in voxels;
      var one := PeakMap([last], shape);
      TotalSingle(one, last);
      TotalAdd(PeakMap(init, shape), one, PeakMap(voxels, shape), shape);
    }
  }

  /** The peak map of `coords` totals the number of rows that fall inside the grid. */
  lemma PeakTotalIsKeptCount(coords: Coords, ref: RefImg)
    ensures Total(PeakMap(CoordsToVoxels(coords, ref), ref.shape)) == |KeptRows(coords, ref)| as real
  {
    KeptExactlyInBounds(coords, ref);
    PeakMapTotal(CoordsToVoxels(coords, ref), ref.shape);
  }

  /** An empty table, or one whose every row falls outside the grid, gives the all-zero map. */
  lemma OutsideGivesZeros(coords: Coords, ref: RefImg)
    requires forall p | p in AtLeast2D(coords) :: !InBounds(ref.toVoxel(p), ref.shape)
    ensures CoordsToVoxels(coords, ref) == []
    ensures forall i, j, k | 0 <= i < ref.shape.ni && 0 <= j < ref.shape.nj && 0 <= k < ref.shape.nk ::
      PeakMap(CoordsToVoxels(coords, ref), ref.shape)[i][j][k] == 0.0
  {
    var rows := AtLeast2D(coords);
    var mapped := ToVoxelSpace(rows, ref);
    forall n | 0 <= n < |mapped|
      ensures !InBoundsIn(ref.shape)(mapped[n])
    {
      assert rows[n] in rows;
    }
    FilterNone(mapped, InBoundsIn(ref.shape));
    KeptExactlyInBounds(coords, ref);
  }

  /** The array `a` holds exactly the volume `g`. */
  ghost predicate Represents(a: array3<real>, g: Volume)
    reads a
  {
    HasShape(g, Shape(a.Length0, a.Length1, a.Length2)) &&
    forall i, j, k | 0 <= i < a.Length0 && 0 <= j < a.Length1 && 0 <= k < a.Length2 ::
      a[i, j, k] == g[i][j][k]
  }

  /** `np.add.at(peaks, tuple(voxels.T), 1.0)`: an unbuffered in-place add,
      so a voxel listed n times gains n. */
  method AddAt(peaks: array3<real>, voxels: seq<Voxel>)
    requires forall v | v in voxels :: InGrid(v, Shape(peaks.Length0, peaks.Length1, peaks.Length2))
    modifies peaks
    ensures forall i, j, k | 0 <= i < peaks.Length0 && 0 <= j < peaks.Length1 && 0 <= k < peaks.Length2 ::
      peaks[i, j, k] == old(peaks[i, j, k]) + multiset(voxels)[Voxel(i, j, k)] as real
  {
    var n := 0;
    while n < |voxels|
      invariant 0 <= n <= |voxels|
      invariant forall i, j, k | 0 <= i < peaks.Length0 && 0 <= j < peaks.Length1 && 0 <= k < peaks.Length2 ::
        peaks[i, j, k] == old(peaks[i, j, k]) + multiset(voxels[..n])[Voxel(i, j, k)] as real
    {
      var v := voxels[n];
      assert v in voxels;
      peaks[v.i, v.j, v.k] := peaks[v.i, v.j, v.k] + 1.0;
      assert voxels[..n + 1] == voxels[..n] + [v];
      n := n + 1;
    }
    assert voxels[..n] == voxels;
  }

  /** `a` has the given shape and holds the peak map of `voxels`. */
  ghost predicate IsPeakArray(a: array3<real>, voxels: seq<Voxel>, shape: Shape)
    reads a
  {
    a.Length0 == shape.ni && a.Length1 == shape.nj && a.Length2 == shape.nk &&
    Represents(a, PeakMap(voxels, shape))
  }

  /** `peaks = np.zeros(shape); np.add.at(peaks, tuple(voxels.T), 1.0)`: a
      fresh zero array of the grid's shape, incremented once per listed voxel. */
  method PeaksOf(voxels: seq<Voxel>, shape: Shape) returns (peaks: array3<real>)
    requires forall v | v in voxels :: InGrid(v, shape)
    ensures fresh(peaks)
    ensures IsPeakArray(peaks, voxels, shape)
  {
    peaks := new real[shape.ni, shape.nj, shape.nk]((i, j, k) => 0.0);
    AddAt(peaks, voxels);
  }

  /** `coords_to_peaks_arr(coords, mask_img)`: an array of the mask's shape
      whose value at each voxel is the number of kept rows that floor to it. */
  method CoordsToPeaksArr(coords: Coords, maskImg: RefImg) returns (peaks: array3<real>)
    ensures fresh(peaks)
    ensures IsPeakArray(peaks, CoordsToVoxels(coords, maskImg), maskImg.shape)
  {
    var voxels := CoordsToVoxels(coords, maskImg);
    peaks := PeaksOf(voxels, maskImg.shape);
  }

  /** A volume together with the reference image whose grid it lives on
      (`new_img_like(mask_img, data)`). */
  datatype Image = Image(data: array3<real>, ref: RefImg)

  /** `coords_to_peaks_img(coords, mask_img)`: the same peak counts as
      `coords_to_peaks_arr`, wrapped in an image on the mask's grid. */
  method CoordsToPeaksImg(coords: Coords, maskImg: RefImg) returns (img: Image)
    ensures fresh(img.data)
    ensures img.ref == maskImg
    ensures IsPeakArray(img.data, CoordsToVoxels(coords, maskImg), maskImg.shape)
  {
    var voxels := CoordsToVoxels(coords, maskImg);
    var peaks := PeaksOf(voxels, maskImg.shape);
    img := Image(peaks, maskImg);
  }

  /** Two arrays that hold the peak map of the same voxels agree everywhere:
      the image of `coords_to_peaks_img` carries exactly the values of
      `coords_to_peaks_arr` for the same coordinates and mask. */
  lemma PeakArraysAgree(a: array3<real>, b: array3<real>, voxels: seq<Voxel>, shape: Shape)
    requires IsPeakArray(a, voxels, shape) && IsPeakArray(b, voxels, shape)
    ensures a.Length0 == b.Length0 && a.Length1 == b.Length1 && a.Length2 == b.Length2
    ensures forall i, j, k | 0 <= i < a.Length0 && 0 <= j < a.Length1 && 0 <= k < a.Length2 ::
      a[i, j, k] == b[i, j, k] == multiset(voxels)[Voxel(i, j, k)] as real
  {
  }
}
