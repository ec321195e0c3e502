/** `coords_to_voxels`: world coordinates to integer voxel indices of a
    reference grid, dropping the points that fall outside the grid. */
module Voxels {
  import opened Seqs

  /** A point of continuous space: world (scanner) coordinates, or
      continuous voxel coordinates once mapped into the grid. */
  datatype Point = Point(x: real, y: real, z: real)

  /** An integer voxel index (i, j, k). */
  datatype Voxel = Voxel(i: int, j: int, k: int)

  /** The first three dimensions of a reference image. */
  datatype Shape = Shape(ni: nat, nj: nat, nk: nat)

  /** What a caller may pass as `coords`: a single (x, y, z) triple or a
      table with one (x, y, z) row per point. */
  datatype Coords = Triple(p: Point) | Table(rows: seq<Point>)

  /** A reference image as `coords_to_voxels` uses it: the shape of its grid
      and the map from a world point to continuous voxel coordinates, that is
      the pseudo-inverse of the image's affine applied to the point in
      homogeneous coordinates, with the homogeneous component dropped. */
  datatype RefImg = RefImg(shape: Shape, toVoxel: Point -> Point)

  /** `np.atleast_2d`: a single triple becomes a table of one row. */
  function AtLeast2D(coords: Coords): seq<Point>
  {
    match coords
    case Triple(p) => [p]
    case Table(rows) => rows
  }

  /** The affine step applied row by row. */
  function ToVoxelSpace(rows: seq<Point>, ref: RefImg): (voxels: seq<Point>)
    ensures |voxels| == |rows|
    ensures forall n | 0 <= n < |rows| :: voxels[n] == ref.toVoxel(rows[n])
  {
    seq(|rows|, n requires 0 <= n < |rows| => ref.toVoxel(rows[n]))
  }

  /** The first filter: every component is at least 0. */
  predicate NonNegative(p: Point)
  {
    p.x >= 0.0 && p.y >= 0.0 && p.z >= 0.0
  }

  /** The second filter: every component is strictly below the grid dimension. */
  predicate Below(p: Point, shape: Shape)
  {
    p.x < shape.ni as real && p.y < shape.nj as real && p.z < shape.nk as real
  }

  /** The half-open box [0, ni) x [0, nj) x [0, nk) of continuous voxel space. */
  predicate InBounds(p: Point, shape: Shape)
  {
    NonNegative(p) && Below(p, shape)
  }

  /** The row masks as values, so that every use names the same function. */
  function BelowIn(shape: Shape): Point -> bool
  {
    p => Below(p, shape)
  }

  function InBoundsIn(shape: Shape): Point -> bool
  {
    p => InBounds(p, shape)
  }

  /** A valid index into an array of the given shape. */
  predicate InGrid(v: Voxel, shape: Shape)
  {
    0 <= v.i < shape.ni && 0 <= v.j < shape.nj && 0 <= v.k < shape.nk
  }

  function InGridOf(shape: Shape): Voxel -> bool
  {
    v => InGrid(v, shape)
  }

  function FloorVoxel(p: Point): Voxel
  {
    Voxel(p.x.Floor, p.y.Floor, p.z.Floor)
  }

  /** `np.floor(voxels).astype(int)`, row by row. */
  function FloorAll(points: seq<Point>): (voxels: seq<Voxel>)
    ensures |voxels| == |points|
    ensures forall n | 0 <= n < |points| :: voxels[n] == FloorVoxel(points[n])
  {
    seq(|points|, n requires 0 <= n < |points| => FloorVoxel(points[n]))
  }

  lemma FloorAllAppend(a: seq<Point>, b: seq<Point>)
    ensures FloorAll(a + b) == FloorAll(a) + FloorAll(b)
  {
  }

  /** Flooring lands in the grid exactly when the point lies in the half-open box. */
  lemma FloorInGrid(p: Point, shape: Shape)
    ensures InGrid(FloorVoxel(p), shape) <==> InBounds(p, shape)
  {
  }

  /** `coords_to_voxels(coords, ref_img)`: map every row into voxel space,
      keep the rows with all components non-negative, then those with all
      components below the grid dimensions, and floor what is left. */
  function CoordsToVoxels(coords: Coords, ref: RefImg): (voxels: seq<Voxel>)
    ensures |voxels| <= |AtLeast2D(coords)|
    ensures forall v :: v in voxels ==> InGrid(v, ref.shape)
  {
    var mapped := ToVoxelSpace(AtLeast2D(coords), ref);
    var nonNegative := Filter(mapped, NonNegative);
    var inside := Filter(nonNegative, BelowIn(ref.shape));
    forall p | p in inside
      ensures InGrid(FloorVoxel(p), ref.shape)
    {
      FloorInGrid(p, ref.shape);
    }
    FloorAll(inside)
  }

  /** Continuous voxel coordinates of the rows that survive both filters. */
  function KeptRows(coords: Coords, ref: RefImg): seq<Point>
  {
    Filter(ToVoxelSpace(AtLeast2D(coords), ref), InBoundsIn(ref.shape))
  }

  /** The two filters act as one: a row is kept exactly when its three
      continuous voxel coordinates all lie in [0, N); the kept rows are
      floored in their input order. */
  lemma KeptExactlyInBounds(coords: Coords, ref: RefImg)
    ensures CoordsToVoxels(coords, ref) == FloorAll(KeptRows(coords, ref))
    ensures |CoordsToVoxels(coords, ref)| == |KeptRows(coords, ref)|
  {
    var mapped := ToVoxelSpace(AtLeast2D(coords), ref);
    FilterFilter(mapped, NonNegative, BelowIn(ref.shape), InBoundsIn(ref.shape));
  }

  /** Filtering before flooring, as the code does, gives the same indices as
      flooring first and then dropping the indices outside the grid. */
  lemma {:induction false} FilterThenFloor(points: seq<Point>, shape: Shape)
    ensures FloorAll(Filter(points, InBoundsIn(shape)))
         == Filter(FloorAll(points), InGridOf(shape))
  {
    if points != [] {
      var head, tail := points[0], points[1..];
      assert points == [head] + tail;
      FilterThenFloor(tail, shape);
      FloorInGrid(head, shape);
      FilterAppend([head], tail, InBoundsIn(shape));
      FilterSingleton(head, InBoundsIn(shape));
      assert FloorAll(points) == [FloorVoxel(head)] + FloorAll(tail);
      FilterAppend([FloorVoxel(head)], FloorAll(tail), InGridOf(shape));
      FilterSingleton(FloorVoxel(head), InGridOf(shape));
      FloorAllAppend(Filter([head], InBoundsIn(shape)), Filter(tail, InBoundsIn(shape)));
    }
  }

  /** Rows are processed independently and in order: the result for a table
      is the concatenation of the results for its parts. */
  lemma TableAppend(a: seq<Point>, b: seq<Point>, ref: RefImg)
    ensures CoordsToVoxels(Table(a + b), ref)
         == CoordsToVoxels(Table(a), ref) + CoordsToVoxels(Table(b), ref)
  {
    var ma, mb := ToVoxelSpace(a, ref), ToVoxelSpace(b, ref);
    assert ToVoxelSpace(a + b, ref) == ma + mb;
    FilterAppend(ma, mb, InBoundsIn(ref.shape));
    var ka, kb := KeptRows(Table(a), ref), KeptRows(Table(b), ref);
    assert KeptRows(Table(a + b), ref) == ka + kb;
    FloorAllAppend(ka, kb);
    KeptExactlyInBounds(Table(a + b), ref);
    KeptExactlyInBounds(Table(a), ref);
    KeptExactlyInBounds(Table(b), ref);
  }

  /** A single triple is treated as a one-row table, and yields its floored
      voxel exactly when it maps into the grid, and nothing otherwise. */
  lemma TripleIsOneRow(p: Point, ref: RefImg)
    ensures CoordsToVoxels(Triple(p), ref) == CoordsToVoxels(Table([p]), ref)
    ensures CoordsToVoxels(Triple(p), ref)
         == if InBounds(ref.toVoxel(p), ref.shape) then [FloorVoxel(ref.toVoxel(p))] else []
  {
    var q := ref.toVoxel(p);
    assert ToVoxelSpace([p], ref) == [q];
    KeptExactlyInBounds(Triple(p), ref);
    FilterSingleton(q, InBoundsIn(ref.shape));
  }
}
