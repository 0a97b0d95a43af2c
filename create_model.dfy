/** The table reshaping around the factorization model
    (modeling/create_model.py): the per-(athlete, segment) mean speeds the
    model is trained on, the split of each coefficient table's `factors`
    lists into `rating_1 .. rating_k` columns, and the in-place removal of the
    `factors` and `linear_terms` columns. */
module CreateModel {
  import opened Frames

  // ---------------------------------------------------------------------
  // get_agg_sf

  /** One row of the aggregated table, with its columns in the order
      `segment_id`, `athlete_id`, `average_speed`. */
  datatype AggRow = AggRow(segmentId: Id, athleteId: Id, averageSpeed: real)

  function AggRowOf(efforts: seq<Effort>, pair: (Id, Id)): AggRow
  {
    var m := MeanSpeedOf(efforts, PairKey, pair);
    AggRow(pair.1, pair.0, if m.Some? then m.value else 0.0)
  }

  /** `df.groupby(['athlete_id', 'segment_id']).mean()` restricted to the
      three kept columns: one row per (athlete, segment) pair that occurs. */
  function GetAgg(efforts: seq<Effort>): (rows: seq<AggRow>)
    ensures |rows| == |DistinctKeys(efforts, PairKey)|
  {
    var pairs := DistinctKeys(efforts, PairKey);
    seq(|pairs|, i requires 0 <= i < |pairs| => AggRowOf(efforts, pairs[i]))
  }

  /** The (athlete, segment) pair a row aggregates. */
  function AggKey(row: AggRow): (Id, Id)
  {
    (row.athleteId, row.segmentId)
  }

  /** The (athlete, segment) pairs that occur in the effort table. */
  function EffortPairs(efforts: seq<Effort>): set<(Id, Id)>
  {
    set e | e in efforts :: PairKey(e)
  }

  /** The aggregated table has exactly one row per pair that occurs in the
      effort table. */
  lemma GetAggPairs(efforts: seq<Effort>)
    ensures (set row | row in GetAgg(efforts) :: AggKey(row)) == EffortPairs(efforts)
    ensures forall i, j :: 0 <= i < j < |GetAgg(efforts)| ==> AggKey(GetAgg(efforts)[i]) != AggKey(GetAgg(efforts)[j])
  {
    var rows := GetAgg(efforts);
    var pairs := DistinctKeys(efforts, PairKey);
    DistinctKeysSpec(efforts, PairKey);
    forall p ensures p in (set row | row in rows :: AggKey(row)) <==> p in EffortPairs(efforts) {
      if p in (set row | row in rows :: AggKey(row)) {
        var row :| row in rows && AggKey(row) == p;
        var i :| 0 <= i < |rows| && rows[i] == row;
        assert pairs[i] == p;
        assert p in pairs;
        var k :| 0 <= k < |efforts| && PairKey(efforts[k]) == p;
        assert efforts[k] in efforts;
      }
      if p in EffortPairs(efforts) {
        var e :| e in efforts && PairKey(e) == p;
        var k :| 0 <= k < |efforts| && efforts[k] == e;
        assert PairKey(efforts[k]) == p;
        assert p in pairs;
        var i :| 0 <= i < |pairs| && pairs[i] == p;
        assert AggKey(rows[i]) == p;
        assert rows[i] in rows;
      }
    }
    forall i, j | 0 <= i < j < |rows| ensures AggKey(rows[i]) != AggKey(rows[j]) {
      assert AggKey(rows[i]) == pairs[i];
      assert AggKey(rows[j]) == pairs[j];
    }
  }

  /** Each row's speed is the arithmetic mean of the speeds of that pair's efforts. */
  lemma GetAggMean(efforts: seq<Effort>, i: nat)
    requires i < |GetAgg(efforts)|
    ensures var row := GetAgg(efforts)[i];
      var speeds := SpeedsOf(efforts, PairKey, (row.athleteId, row.segmentId));
      |speeds| > 0 && row.averageSpeed == Mean(speeds)
  {
    var pairs := DistinctKeys(efforts, PairKey);
    DistinctKeysSpec(efforts, PairKey);
    var pair := pairs[i];
    assert pair in pairs;
    var k :| 0 <= k < |efforts| && PairKey(efforts[k]) == pair;
    SpeedsOfNonEmpty(efforts, PairKey, pair);
    MeanSpeedOfIsMean(efforts, PairKey, pair);
    assert (GetAgg(efforts)[i].athleteId, GetAgg(efforts)[i].segmentId) == pair;
  }

  // ---------------------------------------------------------------------
  // Coefficient tables

  /** A cell of a coefficient table: an id, a number, or the list of latent
      factors. */
  datatype Cell = Int(i: int) | Real(r: real) | List(items: seq<real>)

  datatype Column = Column(name: string, cells: seq<Cell>)

  /** A data frame as its ordered columns. */
  type Table = seq<Column>

  /** The exceptions the reshaping raises. */
  datatype Error =
    | MissingAttribute(name: string)          // AttributeError: no column `df.factors`
    | NotSubscriptable(row: nat)              // TypeError: `x[i]` on a number
    | ListIndexOutOfRange(row: nat, i: nat)   // IndexError: `x[i]` past the list's end
    | LabelsNotFound(labels: seq<string>)     // `drop`'s error (ValueError before pandas 0.23, KeyError from 0.23): the missing labels

  predicate HasColumn(columns: Table, name: string)
  {
    exists c :: 0 <= c < |columns| && columns[c].name == name
  }

  /** The first column with the given name, as attribute access finds it. */
  function FindColumn(columns: Table, name: string): (r: Option<nat>)
    ensures r.None? <==> !HasColumn(columns, name)
    ensures r.Some? ==> r.value < |columns| && columns[r.value].name == name
    ensures r.Some? ==> forall c :: 0 <= c < r.value ==> columns[c].name != name
  {
    if columns == [] then None
    else if columns[0].name == name then Some(0)
    else match FindColumn(columns[1..], name)
      case None => None
      case Some(c) => Some(c + 1)
  }

  // Decimal rendering of column numbers ('{}'.format(i + 1)).

  function DigitChar(d: nat): char
    requires d < 10
  {
    "0123456789"[d]
  }

  function DigitValue(ch: char): nat
  {
    if '0' <= ch <= '9' then (ch as int - '0' as int) as nat else 0
  }

  /** The decimal digits of `n`, most significant first, no leading zero. */
  function Decimal(n: nat): (s: string)
    ensures |s| > 0 && forall k :: 0 <= k < |s| ==> '0' <= s[k] <= '9'
  {
    if n < 10 then [DigitChar(n)] else Decimal(n / 10) + [DigitChar(n % 10)]
  }

  /** Reading decimal digits back as a number. */
  function ParseDecimal(s: string): nat
  {
    if s == [] then 0 else ParseDecimal(s[..|s| - 1]) * 10 + DigitValue(s[|s| - 1])
  }

  /** Reading back the digits of `n` gives `n`, so different numbers are
      written differently. */
  lemma {:induction false} DecimalRoundTrip(n: nat)
    ensures ParseDecimal(Decimal(n)) == n
  {
    if n >= 10 {
      DecimalRoundTrip(n / 10);
      var s := Decimal(n);
      assert s[..|s| - 1] == Decimal(n / 10);
      assert DigitValue(DigitChar(n % 10)) == n % 10;
    } else {
      assert DigitValue(DigitChar(n)) == n;
    }
  }

  function RatingName(i: nat): string
  {
    "rating_" + Decimal(i + 1)
  }

  /** The `rating_*` names of different features differ. */
  lemma RatingNamesDistinct(i: nat, j: nat)
    requires i != j
    ensures RatingName(i) != RatingName(j)
  {
    DecimalRoundTrip(i + 1);
    DecimalRoundTrip(j + 1);
    assert RatingName(i)[7..] == Decimal(i + 1);
    assert RatingName(j)[7..] == Decimal(j + 1);
  }

  // ---------------------------------------------------------------------
  // make_cleaner_dfs

  /** `x[i]` on one `factors` cell. */
  function FactorAt(cell: Cell, row: nat, i: nat): (r: Result<Cell, Error>)
    ensures r.Ok? <==> cell.List? && i < |cell.items|
    ensures r.Ok? ==> r.value == Real(cell.items[i])
  {
    match cell
    case List(items) => if i < |items| then Ok(Real(items[i])) else Err(ListIndexOutOfRange(row, i))
    case _ => Err(NotSubscriptable(row))
  }

  /** `df.factors.apply(lambda x: x[i])`, row by row, stopping at the first
      row that raises. */
  function FactorColumn(factors: seq<Cell>, i: nat): (r: Result<seq<Cell>, Error>)
    ensures r.Ok? ==> |r.value| == |factors|
  {
    if factors == [] then Ok([])
    else
      var n := |factors| - 1;
      match FactorColumn(factors[..n], i)
      case Err(e) => Err(e)
      case Ok(cells) =>
        match FactorAt(factors[n], n, i)
        case Err(e) => Err(e)
        case Ok(c) => Ok(cells + [c])
  }

  /** The columns `rating_1 .. rating_k` for the first `k` factors. */
  function RatingColumns(factors: seq<Cell>, k: nat): (r: Result<seq<Column>, Error>)
    ensures r.Ok? ==> |r.value| == k
  {
    if k == 0 then Ok([])
    else
      match RatingColumns(factors, k - 1)
      case Err(e) => Err(e)
      case Ok(cols) =>
        match FactorColumn(factors, k - 1)
        case Err(e) => Err(e)
        case Ok(cells) => Ok(cols + [Column(RatingName(k - 1), cells)])
  }

  /** `range(num_features)` has no elements for a negative count. */
  function FeatureCount(numFeatures: int): nat
  {
    if numFeatures > 0 then numFeatures else 0
  }

  /** `pd.concat([df] + [rating columns], axis=1)` for one frame. `df.factors`
      is only read inside the comprehension over the features, so a frame
      asked for no feature is returned as it is. */
  function CleanerFrame(columns: Table, numFeatures: int): Result<Table, Error>
  {
    if FeatureCount(numFeatures) == 0 then Ok(columns)
    else match FindColumn(columns, "factors")
    case None => Err(MissingAttribute("factors"))
    case Some(f) =>
      match RatingColumns(columns[f].cells, FeatureCount(numFeatures))
      case Err(e) => Err(e)
      case Ok(ratings) => Ok(columns + ratings)
  }

  /** `make_cleaner_dfs(dfs, num_features)`: every frame in order, or the
      first exception. */
  function MakeCleanerFrames(frames: seq<Table>, numFeatures: int): (r: Result<seq<Table>, Error>)
    ensures r.Ok? ==> |r.value| == |frames|
  {
    if frames == [] then Ok([])
    else
      var n := |frames| - 1;
      match MakeCleanerFrames(frames[..n], numFeatures)
      case Err(e) => Err(e)
      case Ok(done) =>
        match CleanerFrame(frames[n], numFeatures)
        case Err(e) => Err(e)
        case Ok(t) => Ok(done + [t])
  }

  /** Every `factors` cell is a list with at least `k` items. */
  predicate FactorsHave(factors: seq<Cell>, k: nat)
  {
    forall row :: 0 <= row < |factors| ==> factors[row].List? && k <= |factors[row].items|
  }

  /** Extracting factor `i` succeeds exactly when every row's list is long
      enough, and then holds item `i` of each row. */
  lemma {:induction false} FactorColumnSpec(factors: seq<Cell>, i: nat)
    ensures FactorColumn(factors, i).Ok? <==> FactorsHave(factors, i + 1)
    ensures FactorColumn(factors, i).Ok? ==>
      forall row :: 0 <= row < |factors| ==> FactorColumn(factors, i).value[row] == Real(factors[row].items[i])
  {
    if factors != [] {
      var n := |factors| - 1;
      var init := factors[..n];
      FactorColumnSpec(init, i);
      if FactorsHave(factors, i + 1) {
        assert FactorsHave(init, i + 1) by {
          forall row | 0 <= row < |init| ensures init[row].List? && i + 1 <= |init[row].items| {
            assert init[row] == factors[row];
          }
        }
      }
      if FactorColumn(factors, i).Ok? {
        var cells := FactorColumn(init, i).value;
        forall row | 0 <= row < |factors|
          ensures factors[row].List? && i + 1 <= |factors[row].items|
          ensures FactorColumn(factors, i).value[row] == Real(factors[row].items[i])
        {
          if row < n {
            assert init[row] == factors[row];
          }
        }
      }
    }
  }

  /** The first `k` rating columns exist exactly when every `factors` list has
      `k` items; column `i` is then named `rating_{i+1}` and holds item `i` of
      each row's list. */
  lemma {:induction false} RatingColumnsSpec(factors: seq<Cell>, k: nat)
    ensures RatingColumns(factors, k).Ok? <==> k == 0 || FactorsHave(factors, k)
    ensures RatingColumns(factors, k).Ok? ==> forall i :: 0 <= i < k ==>
      && RatingColumns(factors, k).value[i].name == RatingName(i)
      && |RatingColumns(factors, k).value[i].cells| == |factors|
      && forall row :: 0 <= row < |factors| ==> RatingColumns(factors, k).value[i].cells[row] == Real(factors[row].items[i])
  {
    if k > 0 {
      RatingColumnsSpec(factors, k - 1);
      FactorColumnSpec(factors, k - 1);
      if FactorsHave(factors, k) && k - 1 > 0 {
        assert FactorsHave(factors, k - 1);
      }
      if RatingColumns(factors, k).Ok? {
        var cols := RatingColumns(factors, k - 1).value;
        var r := RatingColumns(factors, k).value;
        assert r == cols + [Column(RatingName(k - 1), FactorColumn(factors, k - 1).value)];
        forall i | 0 <= i < k
          ensures r[i].name == RatingName(i) && |r[i].cells| == |factors|
          ensures forall row :: 0 <= row < |factors| ==> r[i].cells[row] == Real(factors[row].items[i])
        {
          if i < k - 1 {
            assert r[i] == cols[i];
          }
        }
      }
    }
  }

  /** What one cleaned frame holds: the original columns, then one
      `rating_{i+1}` column per feature holding item `i` of each row's
      `factors` list (the frame itself when no feature is asked for). */
  predicate IsCleanerFrame(columns: Table, numFeatures: int, t: Table)
  {
    var k := FeatureCount(numFeatures);
    if k == 0 then t == columns
    else
      && HasColumn(columns, "factors")
      && var factors := columns[FindColumn(columns, "factors").value].cells;
      && |t| == |columns| + k
      && t[..|columns|] == columns
      && forall i :: 0 <= i < k ==>
        && t[|columns| + i].name == RatingName(i)
        && |t[|columns| + i].cells| == |factors|
        && forall row :: 0 <= row < |factors| ==>
             factors[row].List? && i < |factors[row].items| && t[|columns| + i].cells[row] == Real(factors[row].items[i])
  }

  /** A frame can be cleaned exactly when no feature is asked for, or it has a
      `factors` column whose lists are all long enough. */
  predicate Cleanable(columns: Table, numFeatures: int)
  {
    || FeatureCount(numFeatures) == 0
    || (&& HasColumn(columns, "factors")
        && FactorsHave(columns[FindColumn(columns, "factors").value].cells, FeatureCount(numFeatures)))
  }

  lemma CleanerFrameSpec(columns: Table, numFeatures: int)
    ensures CleanerFrame(columns, numFeatures).Ok? <==> Cleanable(columns, numFeatures)
    ensures CleanerFrame(columns, numFeatures).Ok? ==> IsCleanerFrame(columns, numFeatures, CleanerFrame(columns, numFeatures).value)
    ensures FeatureCount(numFeatures) > 0 && !HasColumn(columns, "factors") ==>
      CleanerFrame(columns, numFeatures) == Err(MissingAttribute("factors"))
  {
    if FeatureCount(numFeatures) > 0 && HasColumn(columns, "factors") {
      var f := FindColumn(columns, "factors").value;
      var k := FeatureCount(numFeatures);
      RatingColumnsSpec(columns[f].cells, k);
      if CleanerFrame(columns, numFeatures).Ok? {
        var t := CleanerFrame(columns, numFeatures).value;
        var ratings := RatingColumns(columns[f].cells, k).value;
        assert t == columns + ratings;
        assert t[..|columns|] == columns;
        forall i | 0 <= i < k ensures t[|columns| + i] == ratings[i] {
        }
      }
    }
  }

  /** `make_cleaner_dfs` cleans the frames one by one: it succeeds exactly
      when every frame's own cleaning does, and its k-th result is the k-th
      frame cleaned. */
  lemma {:induction false} MakeCleanerFramesEach(frames: seq<Table>, numFeatures: int)
    ensures MakeCleanerFrames(frames, numFeatures).Ok? <==>
      forall k :: 0 <= k < |frames| ==> CleanerFrame(frames[k], numFeatures).Ok?
    ensures MakeCleanerFrames(frames, numFeatures).Ok? ==>
      forall k :: 0 <= k < |frames| ==> MakeCleanerFrames(frames, numFeatures).value[k] == CleanerFrame(frames[k], numFeatures).value
  {
    if frames != [] {
      var n := |frames| - 1;
      var init := frames[..n];
      MakeCleanerFramesEach(init, numFeatures);
      assert forall k :: 0 <= k < n ==> init[k] == frames[k];
      if !MakeCleanerFrames(init, numFeatures).Ok? {
        var k :| 0 <= k < n && !CleanerFrame(init[k], numFeatures).Ok?;
        assert !CleanerFrame(frames[k], numFeatures).Ok?;
      }
      if MakeCleanerFrames(frames, numFeatures).Ok? {
        var done := MakeCleanerFrames(init, numFeatures).value;
        var r := MakeCleanerFrames(frames, numFeatures).value;
        assert r == done + [CleanerFrame(frames[n], numFeatures).value];
        forall k | 0 <= k < |frames| ensures r[k] == CleanerFrame(frames[k], numFeatures).value {
          if k < n {
            assert r[k] == done[k];
          }
        }
      }
    }
  }

  /** `make_cleaner_dfs` succeeds exactly when every frame can be cleaned, and
      then returns one cleaned frame per input frame, in order. */
  lemma MakeCleanerFramesSpec(frames: seq<Table>, numFeatures: int)
    ensures MakeCleanerFrames(frames, numFeatures).Ok? <==>
      forall k :: 0 <= k < |frames| ==> Cleanable(frames[k], numFeatures)
    ensures MakeCleanerFrames(frames, numFeatures).Ok? ==>
      forall k :: 0 <= k < |frames| ==> IsCleanerFrame(frames[k], numFeatures, MakeCleanerFrames(frames, numFeatures).value[k])
  {
    MakeCleanerFramesEach(frames, numFeatures);
    forall k | 0 <= k < |frames|
      ensures CleanerFrame(frames[k], numFeatures).Ok? <==> Cleanable(frames[k], numFeatures)
      ensures CleanerFrame(frames[k], numFeatures).Ok? ==>
        IsCleanerFrame(frames[k], numFeatures, CleanerFrame(frames[k], numFeatures).value)
    {
      CleanerFrameSpec(frames[k], numFeatures);
    }
  }

  // ---------------------------------------------------------------------
  // drop_useless_columns

  /** The columns `drop` removes. */
  predicate Useless(name: string)
  {
    name == "factors" || name == "linear_terms"
  }

  /** The labels of `['factors', 'linear_terms']` that the frame lacks. */
  function MissingLabels(columns: Table): (r: seq<string>)
    ensures r == [] <==> HasColumn(columns, "factors") && HasColumn(columns, "linear_terms")
  {
    (if HasColumn(columns, "factors") then [] else ["factors"]) +
    (if HasColumn(columns, "linear_terms") then [] else ["linear_terms"])
  }

  /** The frame after the drop: every other column, in order. */
  function Dropped(columns: Table): Table
  {
    if columns == [] then []
    else Dropped(columns[..|columns| - 1]) + (if Useless(columns[|columns| - 1].name) then [] else [columns[|columns| - 1]])
  }

  /** The drop removes every `factors` and `linear_terms` column and keeps
      every other column. */
  lemma {:induction false} DroppedMembers(columns: Table)
    ensures forall c :: c in Dropped(columns) <==> c in columns && !Useless(c.name)
  {
    if columns != [] {
      DroppedMembers(columns[..|columns| - 1]);
      assert columns == columns[..|columns| - 1] + [columns[|columns| - 1]];
    }
  }

  /** The drop keeps the order of the remaining columns: it distributes over
      splitting the frame in two. */
  lemma {:induction false} DroppedAppend(a: Table, b: Table)
    ensures Dropped(a + b) == Dropped(a) + Dropped(b)
  {
    if b != [] {
      var n := |b| - 1;
      DroppedAppend(a, b[..n]);
      assert (a + b)[..|a + b| - 1] == a + b[..n];
      assert (a + b)[|a + b| - 1] == b[n];
      var tail := if Useless(b[n].name) then [] else [b[n]];
      assert Dropped(a + b) == Dropped(a + b[..n]) + tail;
      assert Dropped(b) == Dropped(b[..n]) + tail;
    } else {
      assert a + b == a;
    }
  }

  /** A frame without `factors` and `linear_terms` columns is unchanged. */
  lemma {:induction false} DroppedKeepsClean(columns: Table)
    requires forall c :: 0 <= c < |columns| ==> !Useless(columns[c].name)
    ensures Dropped(columns) == columns
  {
    if columns != [] {
      DroppedKeepsClean(columns[..|columns| - 1]);
    }
  }

  /** After the drop both labels are gone, so dropping again raises. */
  lemma DropTwiceRaises(columns: Table)
    ensures MissingLabels(Dropped(columns)) == ["factors", "linear_terms"]
  {
    DroppedMembers(columns);
    forall c | 0 <= c < |Dropped(columns)| ensures !Useless(Dropped(columns)[c].name) {
      assert Dropped(columns)[c] in Dropped(columns);
    }
  }

  /** A data frame object, whose columns `drop(..., inplace=True)` replaces. */
  class DataFrame {
    var columns: Table

    constructor (columns: Table)
      ensures this.columns == columns
    {
      this.columns := columns;
    }

    /** `self.drop(['factors', 'linear_terms'], axis=1, inplace=True)`: raises
        the drop's error and changes nothing when a label is missing (frames
        with distinct column names). */
    method DropUseless() returns (err: Option<Error>)
      modifies this
      ensures err.None? <==> MissingLabels(old(columns)) == []
      ensures err.None? ==> columns == Dropped(old(columns))
      ensures err.Some? ==> err.value == LabelsNotFound(MissingLabels(old(columns))) && columns == old(columns)
    {
      var missing := MissingLabels(columns);
      if missing != [] {
        return Some(LabelsNotFound(missing));
      }
      var kept: Table := [];
      var c := 0;
      while c < |columns|
        invariant 0 <= c <= |columns|
        invariant kept == Dropped(columns[..c])
      {
        if !Useless(columns[c].name) {
          kept := kept + [columns[c]];
        }
        assert columns[..c + 1][..c] == columns[..c];
        c := c + 1;
      }
      assert columns[..c] == columns;
      columns := kept;
      return None;
    }
  }

  /** `drop_useless_columns(dfs)`: drops the two columns from each frame in
      turn; a frame lacking one of them raises, leaving the earlier frames
      dropped and the later ones untouched. */
  method DropUselessColumns(dfs: seq<DataFrame>) returns (err: Option<Error>)
    requires forall p, q :: 0 <= p < q < |dfs| ==> dfs[p] != dfs[q]
    modifies set k | 0 <= k < |dfs| :: dfs[k]
    ensures err.None? <==> forall k :: 0 <= k < |dfs| ==> MissingLabels(old(dfs[k].columns)) == []
    ensures err.None? ==> forall k :: 0 <= k < |dfs| ==> dfs[k].columns == Dropped(old(dfs[k].columns))
    ensures err.Some? ==> exists j ::
      && 0 <= j < |dfs|
      && err.value == LabelsNotFound(MissingLabels(old(dfs[j].columns)))
      && MissingLabels(old(dfs[j].columns)) != []
      && (forall k :: 0 <= k < j ==> MissingLabels(old(dfs[k].columns)) == [] && dfs[k].columns == Dropped(old(dfs[k].columns)))
      && (forall k :: j <= k < |dfs| ==> dfs[k].columns == old(dfs[k].columns))
  {
    var i := 0;
    while i < |dfs|
      invariant 0 <= i <= |dfs|
      invariant forall k :: 0 <= k < i ==> MissingLabels(old(dfs[k].columns)) == [] && dfs[k].columns == Dropped(old(dfs[k].columns))
      invariant forall k :: i <= k < |dfs| ==> dfs[k].columns == old(dfs[k].columns)
    {
      err := dfs[i].DropUseless();
      if err.Some? {
        return;
      }
      i := i + 1;
    }
    err := None;
  }
}
