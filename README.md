# Coordinates to peak maps (neuroquery `img_utils`)

A Dafny model of the discrete part of neuroquery's coordinate-to-image
pipeline. Reported activation peaks arrive as a table of
`(pmid, x, y, z)` rows in world coordinates. The pipeline:

- maps each point into the voxel space of a reference image;
- drops the points that fall outside the grid and floors the rest to voxel
  indices (`coords_to_voxels`);
- counts those indices into a zero array of the mask's shape with an
  unbuffered in-place add (`coords_to_peaks_arr`, `coords_to_peaks_img`);
- does this once per article, grouping the rows by `pmid`
  (`iter_coordinates_to_arrs`, `iter_coordinates_to_maps`,
  `coordinates_to_maps`);
- chooses, in `get_masker`, the mask those grids come from, after turning
  a `target_affine` argument into a matrix: a scalar s into the 3x3 matrix
  s·I, a vector of length n into the n x n `diag(v)`, and a 2-D matrix of any
  size left as it is.

Files:

- `seqs.dfy`: boolean-mask filtering of a sequence, and real sums.
- `voxels.dfy`: `coords_to_voxels`. The pseudo-inverse of the affine is a
  function field `toVoxel` of the reference image. It is applied row by
  row, as the matrix product does.
- `peaks.dfy`: the peak map as a value (`PeakMap`) and its totals. Also the
  array methods that build it in place: `AddAt` is `np.add.at`, with a loop
  invariant.
- `studies.dfy`: `groupby("pmid")` as sorted distinct keys with their
  filtered rows, and the per-study loops. Generators are modelled as methods
  or functions that return what they would yield, in order.
- `masker.dfy`: `get_masker` and the `target_affine` normalisation. Images
  are generic there; the bundled MNI152 mask and resampling are parameters.

Points are exact `real`s and voxel indices are unbounded `int`s.

Two points of the code worth stating:

- `groupby("pmid")` visits groups in ascending key order, which is pandas'
  default, not in order of first occurrence. `GroupKeys` is strictly
  increasing.
- The code filters on the continuous coordinates and then floors
  (`img_utils.py` lines 34-36). `Voxels.FilterThenFloor` proves that flooring
  first and then dropping the out-of-grid indices gives the same indices, for
  a grid of whole-number dimensions.

Some members are plain definitions with no contract of their own. The lemma
rows below state what they mean:

- `Voxels.AtLeast2D` is `np.atleast_2d` (line 31). `Voxels.TripleIsOneRow`
  covers it.
- `Voxels.KeptRows` is the rows that survive both filters.
  `Voxels.KeptExactlyInBounds` covers it.
- `Studies.Group`, `Studies.GroupsOf` and `Studies.GroupBy` are
  `coordinates.groupby("pmid")` (line 166), and `Studies.Concat` puts the
  groups back together. `Studies.GroupByCount`, `Studies.GroupsWellFormed`
  and `Studies.GroupsPartition` cover them.
- `Peaks.Total` is `arr.sum()`. `Peaks.PeakMapTotal` and
  `Peaks.PeakTotalIsKeptCount` cover it.

Some rows are marked "definition". Their contracts spell out a numpy
primitive or a column selection element by element, for the lemmas to use.
They are not properties proved about the source.

## Model

| member | source | states |
|---|---|---|
| Seqs.Filter | neuroquery/img_utils.py:34-35 | a boolean-mask selection is no longer than its input, and holds only elements of the input that satisfy the mask |
| Seqs.FilterCount | neuroquery/img_utils.py:34-35 | a selection keeps every occurrence of a selected element and none of the others (multiset counts) |
| Seqs.FilterAppend | neuroquery/img_utils.py:34-35 | selecting from a concatenation is concatenating the selections: kept rows keep their input order |
| Seqs.FilterSingleton | neuroquery/img_utils.py:34-35 | a one-row table keeps its row exactly when the mask holds on it |
| Seqs.FilterNone | neuroquery/img_utils.py:34-35 | when the mask fails on every row, nothing is kept |
| Seqs.FilterFilter | neuroquery/img_utils.py:34-35 | the two successive selections equal one selection on the conjunction of the two masks |
| Voxels.ToVoxelSpace | neuroquery/img_utils.py:32-33 | definition: the affine step yields one continuous voxel point per input row, row n being the map applied to row n |
| Voxels.FloorAll | neuroquery/img_utils.py:36 | definition: flooring keeps the number of rows, and row n is the componentwise floor of row n |
| Voxels.FloorInGrid | neuroquery/img_utils.py:34-36 | a floored point is a valid index of the grid exactly when the continuous point lies in [0, N) on all three axes |
| Voxels.CoordsToVoxels | neuroquery/img_utils.py:30-37 | the output is never longer than the input, and every index is >= 0 and < the grid dimension on each axis |
| Voxels.KeptExactlyInBounds | neuroquery/img_utils.py:34-36 | the output is the floor, in input order, of exactly the rows whose three continuous coordinates lie in [0, N); so there are as many indices as such rows |
| Voxels.FilterThenFloor | neuroquery/img_utils.py:34-36 | filtering then flooring gives the same indices as flooring then dropping the indices outside the grid |
| Voxels.TableAppend | neuroquery/img_utils.py:33-36 | rows are processed independently and in order: the indices of a concatenated table are the concatenated indices of its parts |
| Voxels.TripleIsOneRow | neuroquery/img_utils.py:31 | a single triple gives the same indices as the one-row table holding it: its floor if it maps inside the grid, nothing otherwise |
| Peaks.PeakMap | neuroquery/img_utils.py:52-53 | the peak volume has the grid's shape on all three axes |
| Peaks.PeakMapTotal | neuroquery/img_utils.py:53 | duplicates add up: for in-grid indices the volume sums to the number of indices, repeated ones included |
| Peaks.PeakTotalIsKeptCount | neuroquery/img_utils.py:51-53 | the peak volume of a coordinate set sums to the number of its rows that fall inside the grid |
| Peaks.OutsideGivesZeros | neuroquery/img_utils.py:51-53 | an empty coordinate set, or one whose rows all fall outside the grid, gives no indices and an all-zero volume |
| Peaks.AddAt | neuroquery/img_utils.py:53 | after the unbuffered add, each element equals its old value plus the number of times its index is listed |
| Peaks.PeaksOf | neuroquery/img_utils.py:52-53 | a zero array of the grid's shape plus the add yields a new array of exactly that shape holding the count of each index |
| Peaks.CoordsToPeaksArr | neuroquery/img_utils.py:49-54 | the array is newly allocated, has the mask's shape, and its value at each voxel is the number of kept rows that floor to that voxel |
| Peaks.CoordsToPeaksImg | neuroquery/img_utils.py:40-46 | the image lies on the mask's grid and its newly allocated data holds the same counts as the array of `coords_to_peaks_arr` |
| Peaks.PeakArraysAgree | neuroquery/img_utils.py:43-53 | two arrays holding the peak map of the same indices have the same shape and the same value at every voxel, the count of that voxel |
| Studies.InsertKey | neuroquery/img_utils.py:166 | adding a key to an ascending list of distinct keys keeps it ascending and distinct, and it then holds exactly the old keys and the new one |
| Studies.GroupKeys | neuroquery/img_utils.py:166 | the group keys are strictly increasing and are exactly the pmids that occur in the table |
| Studies.GroupByCount | neuroquery/img_utils.py:166-167 | there is exactly one group per distinct pmid |
| Studies.GroupsWellFormed | neuroquery/img_utils.py:166-167 | every group is nonempty, all its rows carry its pmid, and groups come in strictly ascending pmid order |
| Studies.GroupsPartition | neuroquery/img_utils.py:166-167 | the groups together hold every row of the table exactly as many times as the table does |
| Studies.Xyz | neuroquery/img_utils.py:173-174 | definition: the x, y, z columns give one point per row, with that row's coordinates |
| Studies.GroupTables | neuroquery/img_utils.py:173-174 | definition: one coordinate table per group, in group order, holding that group's x, y, z values |
| Studies.PeakArraysOf | neuroquery/img_utils.py:167-176 | the loop yields one newly allocated array per voxel list, in order, no two the same object, each of the grid's shape and holding that list's counts |
| Studies.PeakArrays | neuroquery/img_utils.py:173-175 | array n is `coords_to_peaks_arr` of table n alone on the given mask; the arrays are new and pairwise distinct objects |
| Studies.IterCoordinatesToArrs | neuroquery/img_utils.py:162-176 | exactly one array per distinct pmid, in sorted key order; array n is the peak array of group n's rows alone on the grid of the masker's mask; the yielded arrays are new and pairwise distinct objects |
| Studies.StudyImages | neuroquery/img_utils.py:102-116 | one (pmid, image) pair per group, in group order; each image is smoothed from that group's rows alone, with the one masker built from the arguments |
| Studies.CollectMaps | neuroquery/img_utils.py:75-80 | the two lists have one entry per yielded pair; entry n holds the n-th pmid and the transform of the n-th image |
| Studies.CoordinatesToMaps | neuroquery/img_utils.py:66-81 | the returned masker is the `get_masker` one; there is one image row per distinct pmid; row n is labelled with the n-th sorted pmid and holds that masker's transform of the smoothed image of that article's rows alone |
| Masking.Eye | neuroquery/img_utils.py:17 | definition: `np.eye(n)` is n by n, with ones on the diagonal and zeros elsewhere |
| Masking.Scale | neuroquery/img_utils.py:17 | definition: multiplying a matrix by a scalar keeps its shape and scales every entry |
| Masking.Diag | neuroquery/img_utils.py:19 | definition: `np.diag(v)` is the square matrix with v on its diagonal and zeros elsewhere |
| Masking.Diagonal | neuroquery/img_utils.py:19 | definition: the inverse helper of `np.diag(v)` (line 19 only builds a matrix from a vector); it reads a square matrix's diagonal, entry i being m[i][i], and `Masking.DiagRoundTrip` checks `Diag` against it |
| Masking.DiagonalDetermines | neuroquery/img_utils.py:16-19 | two matrices diagonal with the same diagonal are equal |
| Masking.DiagRoundTrip | neuroquery/img_utils.py:19 | reading the diagonal back out of `np.diag(v)` gives v |
| Masking.NormalizeTargetAffine | neuroquery/img_utils.py:15-19 | a scalar s becomes the 3x3 diagonal matrix with s on the diagonal; a vector v of length n becomes the n x n diag(v); a 2-D matrix is passed through unchanged, whatever its size |
| Masking.ScalarIsUniformVector | neuroquery/img_utils.py:16-19 | a scalar resolution s normalises to the same matrix as the vector (s, s, s) |
| Masking.Resampled | neuroquery/img_utils.py:15-22 | with no target affine the mask is kept; otherwise it is resampled to the normalised matrix |
| Masking.GetMasker | neuroquery/img_utils.py:10-24 | an existing masker is returned as it is, whatever the target affine; otherwise the masker is fitted on the given mask, or the MNI152 mask when none is given, after the optional resampling |
| Masking.MaskerIsStable | neuroquery/img_utils.py:11-12 | passing a masker built by `get_masker` back to it, with any target affine, returns that same masker, without a second resampling |

## Left out

- The pseudo-inverse of the affine and the homogeneous column (lines 32-33) are left out. They are floating-point linear algebra. `RefImg.toVoxel` stands for their result, row by row.
- Floating point is left out. Coordinates are exact reals, so rounding near a grid boundary is not modelled.
- The `ref_img=None` default of `coords_to_voxels` (lines 28-29) is left out. Loading the bundled MNI152 mask is file I/O; callers in the model always pass the grid.
- Inputs other than one triple or an N x 3 table are left out. So are masks with more than three dimensions (`np.zeros(mask_img.shape)` would then be 4-D).
- The imaging library is left out: `load_img`, `new_img_like`, `resample_img`, `load_mni152_brain_mask` and the `NiftiMasker`'s fitting, `transform` and `inverse_transform`. It is not part of this model. Resampling, the MNI152 mask, smoothing and the masker's transform are function or value parameters. A fitted masker is reduced to its `mask_img_`.
- `gaussian_coord_smoothing` (lines 57-63), with its `fwhm`, is left out. It is float numerics done by the imaging library. It appears only as the `smoothed` parameter, applied to the masker and one article's points.
- `iter_coordinates_to_maps2` and `coordinates_to_maps4` (lines 84-148) are left out. They depend on a `Maps` class that is not part of this model.
- `iter_coordinates_to_peaks_imgs` (lines 151-159) is left out. Its behaviour with `fwhm=None` depends on the imaging library.
- Progress and diagnostic `print` calls are left out. They are console output.
- Generators are not lazy in the model. Each is modelled as the complete sequence it yields, in order.
- Studies.PeakArrays computes every group's voxel indices before it builds the arrays; the generator interleaves the two. The results are the same because `coords_to_voxels` has no side effects.
- `pmid` is an integer. Missing keys, which pandas' `groupby` drops, and tables without the expected columns are not modelled.
- `np.add.at` wraps negative indices around. That behaviour is not modelled because no negative index reaches it after the filter.
- `target_affine` arrays of more than two dimensions are left out. `TargetAffine.Array` holds a 2-D matrix only; the code would hand such an array to resampling unchanged.
