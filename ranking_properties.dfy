/** What the leaderboard engine guarantees: the rescaled ratings lie in
    [0, 100] with both ends reached, keep or reverse the order of the raw
    ratings and leave missing ratings missing; the orientation compares the
    best-rated entity with the average entity; a leaderboard lists the
    highest scores in descending order, whatever order np.argsort gives to
    ties; and `get` returns one board per feature column. */
module RankingProperties {
  import opened Frames
  import opened Series
  import opened Ranking

  /** The index labels are pairwise different. */
  predicate DistinctIndex(index: seq<Id>)
  {
    forall p, q :: 0 <= p < q < |index| ==> index[p] != index[q]
  }

  /** Reference definition of the rescaling: the affine map sending `lo` to 0
      and `hi` to 100. */
  function Rescale(x: real, lo: real, hi: real): real
    requires lo < hi
  {
    (x - lo) * (100.0 / (hi - lo))
  }

  lemma RescaleRange(x: real, lo: real, hi: real)
    requires lo < hi && lo <= x <= hi
    ensures 0.0 <= Rescale(x, lo, hi) <= 100.0
  {
    var k := 100.0 / (hi - lo);
    assert (hi - lo) * k == 100.0;
    MulMonotone(0.0, x - lo, k);
    MulMonotone(x - lo, hi - lo, k);
  }

  lemma MulMonotone(a: real, b: real, k: real)
    requires a <= b && k > 0.0
    ensures a * k <= b * k
  {
  }

  lemma MulStrict(a: real, b: real, k: real)
    requires a < b && k > 0.0
    ensures a * k < b * k
  {
  }

  lemma RescaleEnds(lo: real, hi: real)
    requires lo < hi
    ensures Rescale(lo, lo, hi) == 0.0 && Rescale(hi, lo, hi) == 100.0
  {
  }

  /** The rescaling is strictly increasing. */
  lemma RescaleMonotone(x: real, y: real, lo: real, hi: real)
    requires lo < hi
    ensures x <= y <==> Rescale(x, lo, hi) <= Rescale(y, lo, hi)
  {
    var k := 100.0 / (hi - lo);
    if x <= y {
      MulMonotone(x - lo, y - lo, k);
    } else {
      MulStrict(y - lo, x - lo, k);
      assert Rescale(y, lo, hi) < Rescale(x, lo, hi);
    }
  }

  /** The raw ratings of a series multiplied by `sign`. */
  function Flipped(s: Series, sign: int): seq<real>
  {
    Values(Times(s, sign as real))
  }

  /** The flipped ratings of a spread series still differ. */
  lemma FlippedWidth(s: Series, sign: int)
    requires sign == 1 || sign == -1
    requires Spread(s)
    ensures |Flipped(s, sign)| == |s| > 0 && Min(Flipped(s, sign)) < Max(Flipped(s, sign))
  {
    FlipKeepsSpread(s, sign as real);
    SpreadWidth(Times(s, sign as real));
  }

  /** The three in-place steps of `scale_column_ratings` compute the affine
      rescaling of the flipped ratings from their minimum to their maximum. */
  lemma ScaleSeriesClosedForm(s: Series, sign: int)
    requires sign == 1 || sign == -1
    requires Spread(s)
    ensures |Flipped(s, sign)| == |s| > 0 && Min(Flipped(s, sign)) < Max(Flipped(s, sign))
    ensures |ScaleSeries(s, sign)| == |s|
    ensures forall i :: 0 <= i < |s| ==>
      ScaleSeries(s, sign)[i] == (s[i].0, Rescale(Flipped(s, sign)[i], Min(Flipped(s, sign)), Max(Flipped(s, sign))))
  {
    FlippedWidth(s, sign);
    forall i | 0 <= i < |s|
      ensures ScaleSeries(s, sign)[i] == (s[i].0, Rescale(Flipped(s, sign)[i], Min(Flipped(s, sign)), Max(Flipped(s, sign))))
    {
      ScaleSeriesAt(s, sign, i);
    }
  }

  lemma ScaleSeriesAt(s: Series, sign: int, i: nat)
    requires sign == 1 || sign == -1
    requires Spread(s) && i < |s|
    ensures Min(Flipped(s, sign)) < Max(Flipped(s, sign))
    ensures |ScaleSeries(s, sign)| == |s|
    ensures ScaleSeries(s, sign)[i] == (s[i].0, Rescale(Flipped(s, sign)[i], Min(Flipped(s, sign)), Max(Flipped(s, sign))))
  {
    var flipped := Times(s, sign as real);
    FlipKeepsSpread(s, sign as real);
    var shifted := Minus(flipped, Min(Values(flipped)));
    assert ScaleSeries(s, sign) == Times(shifted, 100.0 / Max(Values(shifted)));
    StretchAt(flipped, i);
  }

  /** Shifting a spread series to start at 0 and stretching it to end at 100
      is the rescaling from its minimum to its maximum. */
  lemma StretchAt(f: Series, i: nat)
    requires Spread(f) && i < |f|
    ensures Min(Values(f)) < Max(Values(f))
    ensures Max(Values(Minus(f, Min(Values(f))))) > 0.0
    ensures |Times(Minus(f, Min(Values(f))), 100.0 / Max(Values(Minus(f, Min(Values(f))))))| == |f|
    ensures Times(Minus(f, Min(Values(f))), 100.0 / Max(Values(Minus(f, Min(Values(f))))))[i]
         == (f[i].0, Rescale(Values(f)[i], Min(Values(f)), Max(Values(f))))
  {
    var lo := Min(Values(f));
    var hi := Max(Values(f));
    SpreadWidth(f);
    var shifted := Minus(f, lo);
    assert Max(Values(shifted)) == hi - lo by {
      MaxMinus(f, lo);
    }
    ShiftAndStretch(f, lo, hi);
  }

  /** Subtracting `lo` and multiplying by 100 over `hi - lo`, entry by entry. */
  lemma ShiftAndStretch(f: Series, lo: real, hi: real)
    requires lo < hi
    ensures |Times(Minus(f, lo), 100.0 / (hi - lo))| == |f|
    ensures forall i :: 0 <= i < |f| ==>
      Times(Minus(f, lo), 100.0 / (hi - lo))[i] == (f[i].0, Rescale(Values(f)[i], lo, hi))
  {
    var shifted := Minus(f, lo);
    var r := Times(shifted, 100.0 / (hi - lo));
    forall i | 0 <= i < |f| ensures r[i] == (f[i].0, Rescale(Values(f)[i], lo, hi)) {
      assert shifted[i] == (f[i].0, f[i].1 - lo);
      assert r[i].0 == f[i].0;
      assert r[i].1 == (f[i].1 - lo) * (100.0 / (hi - lo));
      assert r[i] == (r[i].0, r[i].1);
      assert Values(f)[i] == f[i].1;
      assert Rescale(Values(f)[i], lo, hi) == (f[i].1 - lo) * (100.0 / (hi - lo));
    }
  }

  /** Flipping by +1 keeps a rating, flipping by -1 negates it. */
  lemma FlippedAt(s: Series, sign: int, i: nat)
    requires sign == 1 || sign == -1
    requires i < |s|
    ensures |Flipped(s, sign)| == |s|
    ensures Flipped(s, sign)[i] == if sign == 1 then s[i].1 else -s[i].1
  {
  }

  /** A raw rating multiplied by `sign`. */
  function Signed(v: real, sign: int): real
  {
    if sign == 1 then v else -v
  }

  /** With a distinct index, `dropna` keeps the labels distinct. */
  lemma DropNaDistinct(index: seq<Id>, cells: seq<Option<real>>)
    requires |index| == |cells| && DistinctIndex(index)
    ensures forall p, q :: 0 <= p < q < |DropNa(index, cells)| ==> DropNa(index, cells)[p].0 != DropNa(index, cells)[q].0
  {
    var ps := PresentPositions(cells);
    forall p, q | 0 <= p < q < |ps| ensures DropNa(index, cells)[p].0 != DropNa(index, cells)[q].0 {
      assert ps[p] < ps[q];
    }
  }

  /** Aligning a series labelled like the non-missing cells back on a
      distinct index leaves the missing cells missing. */
  lemma AlignedMissing(index: seq<Id>, cells: seq<Option<real>>, s: Series, i: nat)
    requires |index| == |cells| && DistinctIndex(index)
    requires |s| == |PresentPositions(cells)|
    requires forall j :: 0 <= j < |s| ==> s[j].0 == index[PresentPositions(cells)[j]]
    requires i < |index| && cells[i].None?
    ensures Aligned(index, s)[i] == None
  {
    var ps := PresentPositions(cells);
    forall j | 0 <= j < |s| ensures s[j].0 != index[i] {
      assert ps[j] != i;
    }
  }

  /** ... and puts the value of a non-missing cell back in its place: the
      entry at position `j` of the series belongs to cell `i`. */
  lemma AlignedPresent(index: seq<Id>, cells: seq<Option<real>>, s: Series, i: nat) returns (j: nat)
    requires |index| == |cells| && DistinctIndex(index)
    requires |s| == |PresentPositions(cells)|
    requires forall j :: 0 <= j < |s| ==> s[j].0 == index[PresentPositions(cells)[j]]
    requires i < |index| && cells[i].Some?
    ensures j < |s| && PresentPositions(cells)[j] == i
    ensures Aligned(index, s)[i] == Some(s[j].1)
  {
    var ps := PresentPositions(cells);
    j := PresentPositionOf(cells, i);
    forall p, q | 0 <= p < q < |s| ensures s[p].0 != s[q].0 {
      assert ps[p] < ps[q];
    }
    LookupDistinct(s, j);
  }

  /** The width the rescaling of a column divides by: the minimum and maximum
      of its non-missing ratings after the sign flip. */
  function FlippedLo(index: seq<Id>, col: RatingColumn, sign: int): real
    requires |col.cells| == |index| && NonDegenerate(col.cells)
    requires sign == 1 || sign == -1
  {
    NonDegenerateSpread(index, col.cells);
    FlippedWidth(DropNa(index, col.cells), sign);
    Min(Flipped(DropNa(index, col.cells), sign))
  }

  function FlippedHi(index: seq<Id>, col: RatingColumn, sign: int): real
    requires |col.cells| == |index| && NonDegenerate(col.cells)
    requires sign == 1 || sign == -1
  {
    NonDegenerateSpread(index, col.cells);
    FlippedWidth(DropNa(index, col.cells), sign);
    Max(Flipped(DropNa(index, col.cells), sign))
  }

  /** Cell by cell, `scale_column_ratings` leaves a missing rating missing and
      sends a rating `v` to the rescaling of `sign * v` from the smallest to the
      largest flipped rating of the column. */
  lemma ScaledCell(speeds: seq<Effort>, queries: SubsetQueries, boardType: string,
                   index: seq<Id>, col: RatingColumn, i: nat)
    requires |col.cells| == |index| && NonDegenerate(col.cells) && DistinctIndex(index)
    requires ScaleColumnSpec(speeds, queries, boardType, index, col).Ok? && i < |index|
    ensures var sign := ScaleSign(speeds, queries, boardType, index, col).value;
      FlippedLo(index, col, sign) < FlippedHi(index, col, sign) &&
      ScaleColumnSpec(speeds, queries, boardType, index, col).value.cells[i] ==
        if col.cells[i].None? then None
        else Some(Rescale(Signed(col.cells[i].value, sign), FlippedLo(index, col, sign), FlippedHi(index, col, sign)))
  {
    NonDegenerateSpread(index, col.cells);
    var sign := ScaleSign(speeds, queries, boardType, index, col).value;
    assert ScaleColumnSpec(speeds, queries, boardType, index, col).value.cells ==
      Aligned(index, ScaleSeries(DropNa(index, col.cells), sign));
    AlignedScaledCell(index, col, sign, i);
  }

  /** The same, for the rescaled non-missing ratings aligned back on the index. */
  lemma AlignedScaledCell(index: seq<Id>, col: RatingColumn, sign: int, i: nat)
    requires |col.cells| == |index| && NonDegenerate(col.cells) && DistinctIndex(index)
    requires sign == 1 || sign == -1
    requires i < |index|
    ensures Spread(DropNa(index, col.cells))
    ensures FlippedLo(index, col, sign) < FlippedHi(index, col, sign)
    ensures Aligned(index, ScaleSeries(DropNa(index, col.cells), sign))[i] ==
        if col.cells[i].None? then None
        else Some(Rescale(Signed(col.cells[i].value, sign), FlippedLo(index, col, sign), FlippedHi(index, col, sign)))
  {
    var present := DropNa(index, col.cells);
    NonDegenerateSpread(index, col.cells);
    FlippedWidth(present, sign);
    var scaled := ScaleSeries(present, sign);
    var ps := PresentPositions(col.cells);
    assert |scaled| == |ps| by {
      ScaleSeriesAt(present, sign, 0);
    }
    forall j | 0 <= j < |scaled| ensures scaled[j].0 == index[ps[j]] {
      ScaleSeriesAt(present, sign, j);
    }
    if col.cells[i].None? {
      AlignedMissing(index, col.cells, scaled, i);
    } else {
      var lo := FlippedLo(index, col, sign);
      var hi := FlippedHi(index, col, sign);
      var j := AlignedPresent(index, col.cells, scaled, i);
      ScaleSeriesAt(present, sign, j);
      FlippedAt(present, sign, j);
      assert present[j].1 == col.cells[i].value;
      assert Flipped(present, sign)[j] == Signed(col.cells[i].value, sign);
      assert scaled[j].1 == Rescale(Signed(col.cells[i].value, sign), lo, hi);
    }
  }

  /** A non-missing rating, flipped, lies between the column's flipped extremes. */
  lemma FlippedCellBounds(index: seq<Id>, col: RatingColumn, sign: int, i: nat)
    requires |col.cells| == |index| && NonDegenerate(col.cells)
    requires sign == 1 || sign == -1
    requires i < |index| && col.cells[i].Some?
    ensures FlippedLo(index, col, sign) <= Signed(col.cells[i].value, sign) <= FlippedHi(index, col, sign)
  {
    var present := DropNa(index, col.cells);
    var j := PresentPositionOf(col.cells, i);
    FlippedAt(present, sign, j);
  }

  /** Each flipped extreme is the flipped value of some non-missing rating. */
  lemma FlippedExtremesReached(index: seq<Id>, col: RatingColumn, sign: int) returns (lo: nat, hi: nat)
    requires |col.cells| == |index| && NonDegenerate(col.cells)
    requires sign == 1 || sign == -1
    ensures lo < |index| && col.cells[lo].Some? && Signed(col.cells[lo].value, sign) == FlippedLo(index, col, sign)
    ensures hi < |index| && col.cells[hi].Some? && Signed(col.cells[hi].value, sign) == FlippedHi(index, col, sign)
  {
    var present := DropNa(index, col.cells);
    NonDegenerateSpread(index, col.cells);
    var f := Flipped(present, sign);
    FlippedWidth(present, sign);
    var ps := PresentPositions(col.cells);
    var a :| 0 <= a < |f| && f[a] == Min(f);
    var b :| 0 <= b < |f| && f[b] == Max(f);
    FlippedAt(present, sign, a);
    FlippedAt(present, sign, b);
    lo := ps[a];
    hi := ps[b];
  }

  /** The rescaled column: the same ratings are missing, every rating lies in
      [0, 100], and some rating is 0 and some rating is 100. */
  lemma ScaledColumnRange(speeds: seq<Effort>, queries: SubsetQueries, boardType: string,
                          index: seq<Id>, col: RatingColumn)
    requires |col.cells| == |index| && NonDegenerate(col.cells) && DistinctIndex(index)
    requires ScaleColumnSpec(speeds, queries, boardType, index, col).Ok?
    ensures var cells := ScaleColumnSpec(speeds, queries, boardType, index, col).value.cells;
      && (forall i :: 0 <= i < |index| ==> (cells[i].Some? <==> col.cells[i].Some?))
      && (forall i :: 0 <= i < |index| && cells[i].Some? ==> 0.0 <= cells[i].value <= 100.0)
      && (exists i :: 0 <= i < |index| && cells[i] == Some(0.0))
      && (exists i :: 0 <= i < |index| && cells[i] == Some(100.0))
  {
    var cells := ScaleColumnSpec(speeds, queries, boardType, index, col).value.cells;
    var sign := ScaleSign(speeds, queries, boardType, index, col).value;
    var lo := FlippedLo(index, col, sign);
    var hi := FlippedHi(index, col, sign);
    forall i | 0 <= i < |index|
      ensures (cells[i].Some? <==> col.cells[i].Some?)
      ensures cells[i].Some? ==> 0.0 <= cells[i].value <= 100.0
    {
      ScaledCell(speeds, queries, boardType, index, col, i);
      if col.cells[i].Some? {
        FlippedCellBounds(index, col, sign, i);
        RescaleRange(Signed(col.cells[i].value, sign), lo, hi);
      }
    }
    var a, b := FlippedExtremesReached(index, col, sign);
    ScaledCell(speeds, queries, boardType, index, col, a);
    ScaledCell(speeds, queries, boardType, index, col, b);
    RescaleEnds(lo, hi);
    assert cells[a] == Some(0.0);
    assert cells[b] == Some(100.0);
  }

  /** The rescaling keeps the order of the ratings multiplied by the sign:
      when the sign is -1 a higher raw rating gets a lower score. */
  lemma ScaledColumnOrder(speeds: seq<Effort>, queries: SubsetQueries, boardType: string,
                          index: seq<Id>, col: RatingColumn, i: nat, k: nat)
    requires |col.cells| == |index| && NonDegenerate(col.cells) && DistinctIndex(index)
    requires ScaleColumnSpec(speeds, queries, boardType, index, col).Ok?
    requires i < |index| && k < |index| && col.cells[i].Some? && col.cells[k].Some?
    ensures var cells := ScaleColumnSpec(speeds, queries, boardType, index, col).value.cells;
      var sign := ScaleSign(speeds, queries, boardType, index, col).value;
      cells[i].Some? && cells[k].Some? &&
      (cells[i].value <= cells[k].value <==> Signed(col.cells[i].value, sign) <= Signed(col.cells[k].value, sign))
  {
    var sign := ScaleSign(speeds, queries, boardType, index, col).value;
    ScaledCell(speeds, queries, boardType, index, col, i);
    ScaledCell(speeds, queries, boardType, index, col, k);
    RescaleMonotone(Signed(col.cells[i].value, sign), Signed(col.cells[k].value, sign),
                    FlippedLo(index, col, sign), FlippedHi(index, col, sign));
  }

  /** `get_orientation` raises exactly when the registry has no entry for the
      feature's base name, when the effort table has no column for the board
      type, or when the entity with the first largest rating has no efforts in
      the subset. */
  lemma OrientationErrors(speeds: seq<Effort>, queries: SubsetQueries, boardType: string,
                          column: Series, name: string)
    requires |column| > 0
    ensures Orientation(speeds, queries, boardType, column, name).Err? <==>
      || SubsetName(name) !in queries
      || GroupKey(boardType).None?
      || SpeedsOf(SpeedSubset(speeds, queries, name).value, GroupKey(boardType).value, column[IdxMax(column)].0) == []
    ensures SubsetName(name) !in queries ==>
      Orientation(speeds, queries, boardType, column, name) == Err(MissingSubsetQuery(SubsetName(name)))
    ensures SubsetName(name) in queries && GroupKey(boardType).None? ==>
      Orientation(speeds, queries, boardType, column, name) == Err(UnknownGroupColumn(boardType))
    ensures GroupKey(boardType).None? <==> boardType != "athlete" && boardType != "segment"
  {
    if SubsetName(name) in queries && GroupKey(boardType).Some? {
      var subset := SpeedSubset(speeds, queries, name).value;
      var key := GroupKey(boardType).value;
      var best := column[IdxMax(column)].0;
      MeanSpeedOfIsMean(subset, key, best);
      if SpeedsOf(subset, key, best) != [] {
        SpeedsOfNonEmpty(subset, key, best);
        MeanOfMeansDefined(subset, key);
      }
    }
  }

  /** Otherwise the orientation is -1 exactly when the mean speed of the
      entity with the first largest raw rating beats the mean over all
      entities of their mean speeds, and +1 when it does not; an entity with no
      efforts in the subset raises. */
  lemma OrientationMeaning(speeds: seq<Effort>, queries: SubsetQueries, boardType: string,
                           column: Series, name: string) returns (p: nat)
    requires |column| > 0
    requires SubsetName(name) in queries && GroupKey(boardType).Some?
    ensures p < |column|
    ensures forall i :: 0 <= i < |column| ==> column[i].1 <= column[p].1
    ensures forall i :: 0 <= i < p ==> column[i].1 < column[p].1
    ensures SpeedSubset(speeds, queries, name).Ok?
    ensures var subset := SpeedSubset(speeds, queries, name).value;
      SpeedsOf(subset, GroupKey(boardType).value, column[p].0) != [] ==> MeanOfMeans(subset, GroupKey(boardType).value).Some?
    ensures var subset := SpeedSubset(speeds, queries, name).value;
      var key := GroupKey(boardType).value;
      var best := SpeedsOf(subset, key, column[p].0);
      Orientation(speeds, queries, boardType, column, name) ==
        if best == [] then Err(NoEffortsFor(column[p].0))
        else if Mean(best) > MeanOfMeans(subset, key).value then Ok(-1) else Ok(1)
  {
    p := IdxMax(column);
    var subset := SpeedSubset(speeds, queries, name).value;
    var key := GroupKey(boardType).value;
    MeanSpeedOfIsMean(subset, key, column[p].0);
    MeanOfMeansDefined(subset, key);
    if SpeedsOf(subset, key, column[p].0) != [] {
      SpeedsOfNonEmpty(subset, key, column[p].0);
    }
  }
}
