/** Per-study processing: `coordinates.groupby("pmid")`, the generator
    `iter_coordinates_to_arrs` and the collecting loop of `coordinates_to_maps`. */
module Studies {
  import opened Seqs
  import opened Voxels
  import opened Peaks
  import opened Masking

  /** One row of the coordinate table: the article (pmid) it was reported in
      and a point in world coordinates. */
  datatype Row = Row(pmid: int, x: real, y: real, z: real)

  /** One group of `groupby("pmid")`: the key and its rows in table order. */
  datatype Study = Study(pmid: int, rows: seq<Row>)

  function Pmids(rows: seq<Row>): set<int>
  {
    set r | r in rows :: r.pmid
  }

  predicate StrictlyIncreasing(keys: seq<int>)
  {
    forall a, b | 0 <= a < b < |keys| :: keys[a] < keys[b]
  }

  /** Adds `key` to an ascending list of distinct keys, unless it is already there. */
  function InsertKey(keys: seq<int>, key: int): (r: seq<int>)
    requires StrictlyIncreasing(keys)
    ensures StrictlyIncreasing(r)
    ensures forall x :: x in r <==> x in keys || x == key
  {
    if keys == [] then [key]
    else if key < keys[0] then [key] + keys
    else if key == keys[0] then keys
    else
      var rest := InsertKey(keys[1..], key);
      HeadBelowTail(keys);
      ConsIncreasing(keys[0], rest);
      [keys[0]] + rest
  }

  lemma HeadBelowTail(keys: seq<int>)
    requires StrictlyIncreasing(keys) && keys != []
    ensures forall x | x in keys[1..] :: keys[0] < x
  {
    forall x | x in keys[1..]
      ensures keys[0] < x
    {
      var b :| 0 <= b < |keys[1..]| && keys[1..][b] == x;
      assert keys[b + 1] == x;
    }
  }

  lemma ConsIncreasing(k: int, rest: seq<int>)
    requires StrictlyIncreasing(rest)
    requires forall x | x in rest :: k < x
    ensures StrictlyIncreasing([k] + rest)
  {
    var r := [k] + rest;
    forall a, b | 0 <= a < b < |r|
      ensures r[a] < r[b]
    {
      assert r[b] == rest[b - 1];
      if a == 0 {
        assert rest[b - 1] in rest;
      } else {
        assert r[a] == rest[a - 1];
      }
    }
  }

  /** The keys of `groupby("pmid")` (sorted, the pandas default): every
      distinct pmid of the table, once, in ascending order. */
  function GroupKeys(rows: seq<Row>): (keys: seq<int>)
    ensures StrictlyIncreasing(keys)
    ensures forall k :: k in keys <==> k in Pmids(rows)
  {
    if rows == [] then []
    else
      var init, last := rows[..|rows| - 1], rows[|rows| - 1];
      assert rows == init + [last];
      assert Pmids(rows) == Pmids(init) + {last.pmid};
      InsertKey(GroupKeys(init), last.pmid)
  }

  function HasPmid(pmid: int): Row -> bool
  {
    (r: Row) => r.pmid == pmid
  }

  /** The rows of one article, in table order. */
  function Group(rows: seq<Row>, pmid: int): seq<Row>
  {
    Filter(rows, HasPmid(pmid))
  }

  function GroupsOf(rows: seq<Row>, keys: seq<int>): seq<Study>
  {
    seq(|keys|, n requires 0 <= n < |keys| => Study(keys[n], Group(rows, keys[n])))
  }

  /** `coordinates.groupby("pmid")` as the sequence its loop visits. */
  function GroupBy(rows: seq<Row>): seq<Study>
  {
    GroupsOf(rows, GroupKeys(rows))
  }

  /** All the rows of a sequence of groups, group after group. */
  function Concat(studies: seq<Study>): seq<Row>
  {
    if studies == [] then [] else studies[0].rows + Concat(studies[1..])
  }

  lemma {:induction false} DistinctCount(keys: seq<int>)
    requires StrictlyIncreasing(keys)
    ensures |set k | k in keys| == |keys|
  {
    if keys != [] {
      DistinctCount(keys[1..]);
      assert (set k | k in keys) == {keys[0]} + (set k | k in keys[1..]);
      assert keys[0] !in (set k | k in keys[1..]);
    }
  }

  /** Exactly one group per distinct pmid. */
  lemma GroupByCount(rows: seq<Row>)
    ensures |GroupBy(rows)| == |Pmids(rows)|
  {
    var keys := GroupKeys(rows);
    assert (set k | k in keys) == Pmids(rows);
    DistinctCount(keys);
  }

  /** Every group has at least one row; all its rows carry its pmid; the
      groups come in strictly ascending pmid order, so no two share a key. */
  lemma GroupsWellFormed(rows: seq<Row>)
    ensures forall n | 0 <= n < |GroupBy(rows)| ::
      GroupBy(rows)[n].rows != [] &&
      forall r | r in GroupBy(rows)[n].rows :: r.pmid == GroupBy(rows)[n].pmid
    ensures forall a, b | 0 <= a < b < |GroupBy(rows)| :: GroupBy(rows)[a].pmid < GroupBy(rows)[b].pmid
  {
    var keys := GroupKeys(rows);
    forall n | 0 <= n < |keys|
      ensures Group(rows, keys[n]) != []
    {
      assert keys[n] in Pmids(rows);
      var r :| r in rows && r.pmid == keys[n];
      FilterCount(rows, HasPmid(keys[n]));
      assert multiset(Group(rows, keys[n]))[r] == multiset(rows)[r];
    }
  }

  lemma {:induction false} ConcatGroupsOf(rows: seq<Row>, keys: seq<int>)
    requires StrictlyIncreasing(keys)
    ensures forall x :: multiset(Concat(GroupsOf(rows, keys)))[x]
                     == if x.pmid in keys then multiset(rows)[x] else 0
  {
    if keys != [] {
      var groups := GroupsOf(rows, keys);
      assert groups[1..] == GroupsOf(rows, keys[1..]);
      ConcatGroupsOf(rows, keys[1..]);
      FilterCount(rows, HasPmid(keys[0]));
      assert keys[0] !in keys[1..];
      assert Concat(groups) == Group(rows, keys[0]) + Concat(groups[1..]);
    }
  }

  /** The groups partition the table: together they hold every row exactly
      as many times as the table does. */
  lemma GroupsPartition(rows: seq<Row>)
    ensures multiset(Concat(GroupBy(rows))) == multiset(rows)
  {
    var keys := GroupKeys(rows);
    ConcatGroupsOf(rows, keys);
    forall x
      ensures multiset(Concat(GroupBy(rows)))[x] == multiset(rows)[x]
    {
      if x in rows {
        assert x.pmid in Pmids(rows);
      }
    }
  }

  /** `coord.loc[:, ["x", "y", "z"]].values`. */
  function Xyz(rows: seq<Row>): (points: seq<Point>)
    ensures |points| == |rows|
    ensures forall n | 0 <= n < |rows| :: points[n] == Point(rows[n].x, rows[n].y, rows[n].z)
  {
    seq(|rows|, n requires 0 <= n < |rows| => Point(rows[n].x, rows[n].y, rows[n].z))
  }

  /** The x, y, z table of every group, in group order. */
  function GroupTables(articles: seq<Study>): (tables: seq<Coords>)
    ensures |tables| == |articles|
    ensures forall n | 0 <= n < |articles| :: tables[n] == Table(Xyz(articles[n].rows))
  {
    seq(|articles|, n requires 0 <= n < |articles| => Table(Xyz(articles[n].rows)))
  }

  /** The loop of `iter_coordinates_to_arrs` once each group's voxel indices
      are known: one fresh peak array per list, in list order. */
  method PeakArraysOf(lists: seq<seq<Voxel>>, shape: Shape) returns (arrs: seq<array3<real>>)
    requires forall n, v | 0 <= n < |lists| && v in lists[n] :: InGrid(v, shape)
    ensures |arrs| == |lists|
    ensures forall n | 0 <= n < |arrs| :: fresh(arrs[n])
    ensures forall a, b | 0 <= a < b < |arrs| :: arrs[a] != arrs[b]
    ensures forall n | 0 <= n < |arrs| :: IsPeakArray(arrs[n], lists[n], shape)
  {
    arrs := [];
    for n := 0 to |lists|
      invariant |arrs| == n
      invariant forall m | 0 <= m < n :: fresh(arrs[m])
      invariant forall a, b | 0 <= a < b < n :: arrs[a] != arrs[b]
      invariant forall m | 0 <= m < n :: IsPeakArray(arrs[m], lists[m], shape)
    {
      var arr := PeaksOf(lists[n], shape);
      arrs := arrs + [arr];
    }
  }

  /** `coords_to_peaks_arr` applied to each table in turn: the array of
      each table is the peak map of that table's voxels alone. */
  method PeakArrays(tables: seq<Coords>, maskImg: RefImg) returns (arrs: seq<array3<real>>)
    ensures |arrs| == |tables|
    ensures forall n | 0 <= n < |arrs| :: fresh(arrs[n])
    ensures forall a, b | 0 <= a < b < |arrs| :: arrs[a] != arrs[b]
    ensures forall n | 0 <= n < |arrs| ::
      IsPeakArray(arrs[n], CoordsToVoxels(tables[n], maskImg), maskImg.shape)
  {
    var lists := seq(|tables|, n requires 0 <= n < |tables| => CoordsToVoxels(tables[n], maskImg));
    arrs := PeakArraysOf(lists, maskImg.shape);
  }

  /** The default `target_affine` of the per-study functions, `(4, 4, 4)`. */
  const DefaultTargetAffine: Option<TargetAffine> := Some(Vector([4.0, 4.0, 4.0]))

  /** `iter_coordinates_to_arrs`: one peak array per distinct pmid, in group
      order, each computed from that group's rows alone on the grid of the
      masker's mask. The arrays are returned in the order the generator
      yields them. */
  method IterCoordinatesToArrs(coordinates: seq<Row>, mask: MaskArg<RefImg>, targetAffine: Option<TargetAffine>,
                               mni: RefImg, resample: (RefImg, Matrix) -> RefImg)
    returns (arrs: seq<array3<real>>)
    ensures |arrs| == |GroupBy(coordinates)| == |Pmids(coordinates)|
    ensures forall n | 0 <= n < |arrs| :: fresh(arrs[n])
    ensures forall a, b | 0 <= a < b < |arrs| :: arrs[a] != arrs[b]
    ensures forall n | 0 <= n < |arrs| ::
      var maskImg := GetMasker(mask, targetAffine, mni, resample).maskImg;
      IsPeakArray(arrs[n], CoordsToVoxels(Table(Xyz(GroupBy(coordinates)[n].rows)), maskImg), maskImg.shape)
  {
    var masker := GetMasker(mask, targetAffine, mni, resample);
    var articles := GroupBy(coordinates);
    GroupByCount(coordinates);
    arrs := PeakArrays(GroupTables(articles), masker.maskImg);
  }

  /** `iter_coordinates_to_maps`: each pmid in group order, with the image
      `smoothed` makes from that article's coordinates and the masker
      (`gaussian_coord_smoothing`, done by the imaging library). The masker is
      built once, and every article is smoothed with that same masker. */
  function StudyImages<Img>(coordinates: seq<Row>, mask: MaskArg<RefImg>, targetAffine: Option<TargetAffine>,
                            mni: RefImg, resample: (RefImg, Matrix) -> RefImg,
                            smoothed: (Masker<RefImg>, seq<Point>) -> Img): (stream: seq<(int, Img)>)
    ensures |stream| == |GroupBy(coordinates)|
    ensures forall n | 0 <= n < |stream| ::
      stream[n] == (GroupBy(coordinates)[n].pmid,
                    smoothed(GetMasker(mask, targetAffine, mni, resample), Xyz(GroupBy(coordinates)[n].rows)))
  {
    var masker := GetMasker(mask, targetAffine, mni, resample);
    var articles := GroupBy(coordinates);
    MaskerIsStable(mask, targetAffine, None, mni, resample);
    seq(|articles|, n requires 0 <= n < |articles| =>
      (articles[n].pmid, smoothed(GetMasker(Fitted(masker), None, mni, resample), Xyz(articles[n].rows))))
  }

  /** The table `coordinates_to_maps` builds: one row per image, indexed by pmid. */
  datatype Frame<V> = Frame(index: seq<int>, images: seq<V>)

  /** The loop of `coordinates_to_maps`: for each (pmid, image) pair it is
      given, append the transformed image to one list and the pmid to the
      other, then pair the two lists up as a table. */
  method CollectMaps<Img, V>(stream: seq<(int, Img)>, transform: Img -> V) returns (maps: Frame<V>)
    ensures |maps.images| == |maps.index| == |stream|
    ensures forall n | 0 <= n < |stream| ::
      maps.index[n] == stream[n].0 && maps.images[n] == transform(stream[n].1)
  {
    var images, imgPmids := [], [];
    for n := 0 to |stream|
      invariant |images| == |imgPmids| == n
      invariant forall m | 0 <= m < n :: imgPmids[m] == stream[m].0 && images[m] == transform(stream[m].1)
    {
      var (pmid, img) := stream[n];
      images := images + [transform(img)];
      imgPmids := imgPmids + [pmid];
    }
    maps := Frame(imgPmids, images);
  }

  /** `coordinates_to_maps`: builds the masker once and returns it beside a
      table with as many rows as distinct pmids; row `n` is labelled with the
      `n`-th pmid in group order and holds that masker's transform of the
      smoothed image of that article's coordinates alone. Passing the masker
      on to `iter_coordinates_to_maps`, whose own default `target_affine`
      differs, does not resample its mask again. */
  method CoordinatesToMaps<Img, V>(coordinates: seq<Row>, mask: MaskArg<RefImg>, targetAffine: Option<TargetAffine>,
                                   mni: RefImg, resample: (RefImg, Matrix) -> RefImg,
                                   smoothed: (Masker<RefImg>, seq<Point>) -> Img,
                                   transform: (Masker<RefImg>, Img) -> V)
    returns (maps: Frame<V>, masker: Masker<RefImg>)
    ensures masker == GetMasker(mask, targetAffine, mni, resample)
    ensures |maps.images| == |maps.index| == |Pmids(coordinates)|
    ensures maps.index == GroupKeys(coordinates)
    ensures forall n | 0 <= n < |maps.images| ::
      maps.images[n] == transform(masker, smoothed(masker, Xyz(Group(coordinates, maps.index[n]))))
  {
    masker := GetMasker(mask, targetAffine, mni, resample);
    GroupByCount(coordinates);
    var stream := StudyImages(coordinates, Fitted(masker), DefaultTargetAffine, mni, resample, smoothed);
    maps := CollectMaps(stream, img => transform(masker, img));
  }
}
