/** The leaderboard engine (`Leaderboards` in modeling/ranking.py): for every
    latent-feature column of a ratings table it orients the scale against the
    riders' real speeds, rescales it into [0, 100] and ranks the leaders. */
module Ranking {
  import opened Frames
  import opened Series

  /** One latent-feature column of a ratings table; a missing rating is None. */
  datatype RatingColumn = RatingColumn(name: string, cells: seq<Option<real>>)

  /** A ratings table indexed by entity id. `indexName` is the name of the
      index (`athlete_id`, `segment_id`, or `index` when it has none): the
      name `reset_index` gives the id column. */
  datatype Ratings = Ratings(indexName: string, index: seq<Id>, columns: seq<RatingColumn>)

  /** Every column has one cell per index entry. */
  predicate Rectangular(t: Ratings)
  {
    forall j :: 0 <= j < |t.columns| ==> |t.columns[j].cells| == |t.index|
  }

  /** A data frame as the factorization model emits it: rectangular, one row
      per entity, one column per feature name. */
  predicate WellFormed(t: Ratings)
  {
    && Rectangular(t)
    && (forall p, q :: 0 <= p < q < |t.index| ==> t.index[p] != t.index[q])
    && (forall p, q :: 0 <= p < q < |t.columns| ==> t.columns[p].name != t.columns[q].name)
  }

  /** Two different non-missing ratings, so that the rescaling divides by a
      non-zero width. */
  predicate NonDegenerate(cells: seq<Option<real>>)
  {
    exists i, j :: 0 <= i < |cells| && 0 <= j < |cells| && cells[i].Some? && cells[j].Some? &&
      cells[i].value < cells[j].value
  }

  predicate AllNonDegenerate(t: Ratings)
  {
    forall j :: 0 <= j < |t.columns| ==> NonDegenerate(t.columns[j].cells)
  }

  /** The requested leaderboard size: the string 'all' or a number. */
  datatype BoardSize = All | Size(n: int)

  /** 'all' is stored as -1; a number is stored as it is. */
  function EncodeBoardSize(b: BoardSize): int
  {
    match b
    case All => -1
    case Size(n) => n
  }

  /** Athlete boards count down (-1), every other board type up (+1). */
  function BoardDirection(boardType: string): (d: int)
    ensures d == -1 <==> boardType == "athlete"
    ensures d == 1 || d == -1
  {
    if boardType == "athlete" then -1 else 1
  }

  /** The effort-table column `'{board_type}_id'`, if the table has it. */
  function GroupKey(boardType: string): Option<Effort -> Id>
  {
    if boardType == "athlete" then Some(AthleteKey)
    else if boardType == "segment" then Some(SegmentKey)
    else None
  }

  /** The exceptions the engine raises. */
  datatype Error =
    | MissingSubsetQuery(name: string)                       // KeyError in the subset-query registry
    | UnknownGroupColumn(boardType: string)                  // KeyError: no '{board_type}_id' column
    | RankLengthMismatch(column: string, rows: nat, ranks: nat)  // ValueError assigning the rank column
    | NoEffortsFor(id: Id)                                   // KeyError: the best entity has no group mean
    | MergeKeyMissing(key: string)                           // KeyError: the leaders frame has no '{board_type}_id' column

  /** The subset-query registry: for a feature's base name, an optional filter
      on the effort table (None stands for a falsy query: no filter). */
  type SubsetQueries = map<string, Option<Effort -> bool>>

  /** `rating_column[:-7]`. */
  function SubsetName(column: string): (r: string)
    ensures |column| >= 7 ==> column == r + column[|column| - 7..]
    ensures |column| < 7 ==> r == ""
  {
    if |column| >= 7 then column[..|column| - 7] else ""
  }

  /** The efforts the orientation is judged on, or the registry's KeyError. */
  function SpeedSubset(speeds: seq<Effort>, queries: SubsetQueries, column: string): Result<seq<Effort>, Error>
  {
    var name := SubsetName(column);
    if name !in queries then Err(MissingSubsetQuery(name))
    else match queries[name]
      case Some(keep) => Ok(Filter(speeds, keep))
      case None => Ok(speeds)
  }

  /** `get_orientation`: -1 when the entity with the largest raw rating is
      faster than the average entity, +1 otherwise. Looking up the mean speed
      of an entity that has no efforts in the subset raises a KeyError. */
  function Orientation(speeds: seq<Effort>, queries: SubsetQueries, boardType: string,
                       column: Series, name: string): (r: Result<int, Error>)
    requires |column| > 0
    ensures r.Ok? ==> r.value == 1 || r.value == -1
  {
    match SpeedSubset(speeds, queries, name)
    case Err(e) => Err(e)
    case Ok(subset) =>
      match GroupKey(boardType)
      case None => Err(UnknownGroupColumn(boardType))
      case Some(key) =>
        var best := column[IdxMax(column)].0;
        match (MeanSpeedOf(subset, key, best), MeanOfMeans(subset, key))
        case (Some(m), Some(avg)) => Ok(if m > avg then -1 else 1)
        case _ => Err(NoEffortsFor(best))
  }

  /** After the sign flip and the shift by the minimum, the largest value is positive. */
  lemma ShiftedMaxPositive(s: Series, sign: int)
    requires sign == 1 || sign == -1
    requires Spread(s)
    ensures Max(Values(Minus(Times(s, sign as real), Min(Values(Times(s, sign as real)))))) > 0.0
  {
    var flipped := Times(s, sign as real);
    FlipKeepsSpread(s, sign as real);
    SpreadWidth(flipped);
    MaxMinus(flipped, Min(Values(flipped)));
  }

  /** The three in-place steps of `scale_column_ratings` on the non-missing
      ratings: flip by `sign`, subtract the minimum, multiply by 100 over the
      new maximum. */
  function ScaleSeries(s: Series, sign: int): Series
    requires sign == 1 || sign == -1
    requires Spread(s)
  {
    var flipped := Times(s, sign as real);
    var shifted := Minus(flipped, Min(Values(flipped)));
    ShiftedMaxPositive(s, sign);
    Times(shifted, 100.0 / Max(Values(shifted)))
  }

  /** A column with two different ratings keeps two different values after `dropna`. */
  lemma NonDegenerateSpread(index: seq<Id>, cells: seq<Option<real>>)
    requires |index| == |cells| && NonDegenerate(cells)
    ensures Spread(DropNa(index, cells))
  {
    var ps := PresentPositions(cells);
    var i, j :| 0 <= i < |cells| && 0 <= j < |cells| && cells[i].Some? && cells[j].Some? &&
      cells[i].value < cells[j].value;
    var a := PresentPositionOf(cells, i);
    var b := PresentPositionOf(cells, j);
    assert DropNa(index, cells)[a].1 < DropNa(index, cells)[b].1;
  }

  /** The factor `board_direction * orientation` a column is multiplied by,
      or the exception the orientation step raises. */
  function ScaleSign(speeds: seq<Effort>, queries: SubsetQueries, boardType: string,
                     index: seq<Id>, col: RatingColumn): (r: Result<int, Error>)
    requires |col.cells| == |index| && NonDegenerate(col.cells)
    ensures r.Ok? ==> r.value == 1 || r.value == -1
  {
    var present := DropNa(index, col.cells);
    NonDegenerateSpread(index, col.cells);
    match Orientation(speeds, queries, boardType, present, col.name)
    case Err(e) => Err(e)
    case Ok(o) => Ok(BoardDirection(boardType) * o)
  }

  /** `scale_column_ratings` for one column, or the exception its orientation
      step raises. The rescaled values are aligned back on the table's index,
      so missing ratings stay missing. */
  function ScaleColumnSpec(speeds: seq<Effort>, queries: SubsetQueries, boardType: string,
                           index: seq<Id>, col: RatingColumn): (r: Result<RatingColumn, Error>)
    requires |col.cells| == |index| && NonDegenerate(col.cells)
    ensures r.Ok? ==> r.value.name == col.name && |r.value.cells| == |index|
  {
    var present := DropNa(index, col.cells);
    NonDegenerateSpread(index, col.cells);
    match ScaleSign(speeds, queries, boardType, index, col)
    case Err(e) => Err(e)
    case Ok(sign) => Ok(RatingColumn(col.name, Aligned(index, ScaleSeries(present, sign))))
  }

  /** One leaderboard row: rank, entity, scaled score and mean effort speed
      (None when the left join finds no efforts). A `Blank` row is one that
      pandas adds, with every other column NaN, when the rank column is
      assigned to a frame that has no rows. */
  datatype Entry =
    | Entry(rank: nat, id: Id, score: real, averageSpeed: Option<real>)
    | Blank(rank: nat)

  type Board = seq<Entry>

  /** The rows `good.iloc[order[-1:-size-1:-1]]` that head the leaderboard. */
  function Leaders(good: Series, order: seq<nat>, size: int): (r: Series)
    requires IsArgsort(Values(good), order)
    ensures |r| == |TopSlice(|good|, size)|
    ensures forall i :: 0 <= i < |r| ==> r[i] == good[order[|good| - 1 - i]]
  {
    var picks := TopSlice(|good|, size);
    seq(|picks|, i requires 0 <= i < |picks| => good[order[picks[i]]])
  }

  /** The rest of `get_n_leaders` once the ratings are sorted by `order`: the
      left join with the mean speeds and the numbering 1..n, which raises when
      `range(1, worst_rank + 1)` does not have one entry per row, unless the
      frame has no rows at all: then the ranks become the rows. */
  function RankBoard(good: Series, order: seq<nat>, size: int, speeds: seq<Effort>,
                     key: Effort -> Id, name: string): Result<Board, Error>
    requires IsArgsort(Values(good), order)
  {
    var leaders := Leaders(good, order, size);
    var worstRank := if size == -1 then |leaders| else size;
    var ranks := if worstRank > 0 then worstRank else 0;
    if ranks != |leaders| then
      if leaders == [] then Ok(seq(ranks, i requires 0 <= i < ranks => Blank(i + 1)))
      else Err(RankLengthMismatch(name, |leaders|, ranks))
    else Ok(seq(|leaders|, i requires 0 <= i < |leaders| =>
      Entry(i + 1, leaders[i].0, leaders[i].1, MeanSpeedOf(speeds, key, leaders[i].0))))
  }

  /** `get_n_leaders` for one scaled column of a table whose index is named
      `indexName`. The merge on `'{board_type}_id'` raises unless the id
      column `reset_index` made carries that name. */
  function NLeadersSpec(speeds: seq<Effort>, boardType: string, indexName: string, index: seq<Id>,
                        col: RatingColumn, size: int): Result<Board, Error>
    requires |col.cells| == |index|
  {
    var good := DropNa(index, col.cells);
    match GroupKey(boardType)
    case None => Err(UnknownGroupColumn(boardType))
    case Some(key) =>
      if indexName != boardType + "_id" then Err(MergeKeyMissing(boardType + "_id"))
      else RankBoard(good, Argsort(Values(good)), size, speeds, key, col.name)
  }

  /** The first exception of a sequence of steps, or all their results: the
      way a Python loop or comprehension stops at the first raise. */
  function FirstError<T>(rs: seq<Result<T, Error>>): (r: Result<seq<T>, Error>)
    ensures r.Ok? ==> |r.value| == |rs|
  {
    if rs == [] then Ok([])
    else
      match FirstError(rs[..|rs| - 1])
      case Err(e) => Err(e)
      case Ok(vs) =>
        match rs[|rs| - 1]
        case Err(e) => Err(e)
        case Ok(v) => Ok(vs + [v])
  }

  /** A successful run succeeded at every step, with the listed results. */
  lemma {:induction false} FirstErrorOk<T>(rs: seq<Result<T, Error>>)
    requires FirstError(rs).Ok?
    ensures forall j :: 0 <= j < |rs| ==> rs[j] == Ok(FirstError(rs).value[j])
  {
    if rs != [] {
      var n := |rs| - 1;
      var init := rs[..n];
      assert FirstError(init).Ok? && rs[n].Ok?;
      FirstErrorOk(init);
      assert FirstError(rs).value == FirstError(init).value + [rs[n].value];
      forall j | 0 <= j < |rs| ensures rs[j] == Ok(FirstError(rs).value[j]) {
        if j < n {
          assert rs[j] == init[j];
        }
      }
    }
  }

  /** A failed run failed at step `j`, after steps that all succeeded. */
  lemma {:induction false} FirstErrorErr<T>(rs: seq<Result<T, Error>>) returns (j: nat)
    requires FirstError(rs).Err?
    ensures j < |rs| && rs[j] == Err(FirstError(rs).error)
    ensures forall k :: 0 <= k < j ==> rs[k].Ok?
  {
    var n := |rs| - 1;
    var init := rs[..n];
    if FirstError(init).Err? {
      j := FirstErrorErr(init);
      assert rs[j] == init[j];
      assert forall k :: 0 <= k < j ==> rs[k] == init[k];
    } else {
      FirstErrorOk(init);
      j := n;
      assert forall k :: 0 <= k < j ==> rs[k] == init[k];
    }
  }

  /** Once a prefix of the steps has raised, the whole sequence raises the same. */
  lemma {:induction false} FirstErrorSticks<T>(rs: seq<Result<T, Error>>, k: nat)
    requires k <= |rs| && FirstError(rs[..k]).Err?
    ensures FirstError(rs) == FirstError(rs[..k])
  {
    if k < |rs| {
      assert rs[..|rs| - 1][..k] == rs[..k];
      FirstErrorSticks(rs[..|rs| - 1], k);
    } else {
      assert rs[..k] == rs;
    }
  }

  /** Running one more step extends a successful prefix. */
  lemma FirstErrorStep<T>(rs: seq<Result<T, Error>>, k: nat, vs: seq<T>)
    requires k < |rs| && FirstError(rs[..k]) == Ok(vs)
    ensures FirstError(rs[..k + 1]) == match rs[k] case Ok(v) => Ok(vs + [v]) case Err(e) => Err(e)
  {
    assert rs[..k + 1][..k] == rs[..k];
  }

  /** `scale_column_ratings` applied to every column of `t`, each on the
      original column. */
  function ScaledColumns(speeds: seq<Effort>, queries: SubsetQueries, boardType: string,
                         t: Ratings): (rs: seq<Result<RatingColumn, Error>>)
    requires Rectangular(t) && AllNonDegenerate(t)
    ensures |rs| == |t.columns|
  {
    seq(|t.columns|, j requires 0 <= j < |t.columns| =>
      ScaleColumnSpec(speeds, queries, boardType, t.index, t.columns[j]))
  }

  /** The scaled copy of the ratings table, or the first exception. */
  function ScaleAll(speeds: seq<Effort>, queries: SubsetQueries, boardType: string,
                    t: Ratings): (r: Result<Ratings, Error>)
    requires Rectangular(t) && AllNonDegenerate(t)
    ensures r.Ok? ==> r.value.indexName == t.indexName && r.value.index == t.index
    ensures r.Ok? ==> |r.value.columns| == |t.columns| && Rectangular(r.value)
    ensures r.Ok? ==> forall j :: 0 <= j < |t.columns| ==> r.value.columns[j].name == t.columns[j].name
  {
    var rs := ScaledColumns(speeds, queries, boardType, t);
    match FirstError(rs)
    case Err(e) => Err(e)
    case Ok(cols) => FirstErrorOk(rs); Ok(t.(columns := cols))
  }

  /** `get_n_leaders` applied to every column of the scaled table. */
  function BoardResults(speeds: seq<Effort>, boardType: string, scaled: Ratings, size: int)
    : (rs: seq<Result<Board, Error>>)
    requires Rectangular(scaled)
    ensures |rs| == |scaled.columns|
  {
    seq(|scaled.columns|, j requires 0 <= j < |scaled.columns| =>
      NLeadersSpec(speeds, boardType, scaled.indexName, scaled.index, scaled.columns[j], size))
  }

  /** The dictionary `{column: board}`, filled column by column (a later
      column of the same name overwrites an earlier one). */
  function BoardMap(columns: seq<RatingColumn>, boards: seq<Board>): map<string, Board>
    requires |boards| == |columns|
  {
    if columns == [] then map[]
    else
      var n := |columns| - 1;
      BoardMap(columns[..n], boards[..n])[columns[n].name := boards[n]]
  }

  /** A step that raises after a successful prefix decides the whole run. */
  lemma FirstErrorAt<T>(rs: seq<Result<T, Error>>, k: nat, vs: seq<T>)
    requires k < |rs| && FirstError(rs[..k]) == Ok(vs) && rs[k].Err?
    ensures FirstError(rs) == Err(rs[k].error)
  {
    FirstErrorStep(rs, k, vs);
    FirstErrorSticks(rs, k + 1);
  }

  /** Adding the next column's board to the dictionary built so far. */
  lemma BoardMapStep(columns: seq<RatingColumn>, built: seq<Board>, b: Board)
    requires |built| < |columns|
    ensures BoardMap(columns[..|built|], built)[columns[|built|].name := b] ==
            BoardMap(columns[..|built| + 1], built + [b])
  {
    var k := |built|;
    var c := columns[..k + 1];
    var bs := built + [b];
    assert c[..k] == columns[..k] && bs[..k] == built;
    assert c[k] == columns[k] && bs[k] == b;
    assert BoardMap(c, bs) == BoardMap(c[..k], bs[..k])[c[k].name := bs[k]];
  }

  /** `scaled` is the copy of `t` once the rescaling loop has been through
      its first `j` columns: each of those holds its rescaled column, every
      later one is still as copied. */
  predicate RescaledUpTo(speeds: seq<Effort>, queries: SubsetQueries, boardType: string,
                         t: Ratings, scaled: Ratings, j: nat)
    requires Rectangular(t) && AllNonDegenerate(t)
  {
    && j <= |t.columns|
    && scaled.indexName == t.indexName && scaled.index == t.index && |scaled.columns| == |t.columns|
    && (forall k :: 0 <= k < j ==>
          ScaleColumnSpec(speeds, queries, boardType, t.index, t.columns[k]) == Ok(scaled.columns[k]))
    && (forall k :: j <= k < |t.columns| ==> scaled.columns[k] == t.columns[k])
  }

  /** The rescaling loop raised `e` at some column `j` and left `scaled` as it
      was at that point. */
  predicate StoppedAt(speeds: seq<Effort>, queries: SubsetQueries, boardType: string,
                      t: Ratings, scaled: Ratings, e: Error)
    requires Rectangular(t) && AllNonDegenerate(t)
  {
    exists j: nat ::
      j < |t.columns| && RescaledUpTo(speeds, queries, boardType, t, scaled, j) &&
      ScaleColumnSpec(speeds, queries, boardType, t.index, t.columns[j]) == Err(e)
  }

  /** A run whose every step succeeded returns the steps' results. */
  lemma {:induction false} FirstErrorAllOk<T>(rs: seq<Result<T, Error>>, vs: seq<T>)
    requires |rs| == |vs| && forall k :: 0 <= k < |rs| ==> rs[k] == Ok(vs[k])
    ensures FirstError(rs) == Ok(vs)
  {
    if rs != [] {
      var n := |rs| - 1;
      FirstErrorAllOk(rs[..n], vs[..n]);
      assert vs == vs[..n] + [vs[n]];
    }
  }

  /** Rescaling column `i` successfully moves the loop on to column `i + 1`. */
  lemma RescaledNext(speeds: seq<Effort>, queries: SubsetQueries, boardType: string,
                     t: Ratings, scaled: Ratings, i: nat, c: RatingColumn)
    requires Rectangular(t) && AllNonDegenerate(t) && i < |t.columns|
    requires RescaledUpTo(speeds, queries, boardType, t, scaled, i)
    requires ScaleColumnSpec(speeds, queries, boardType, t.index, t.columns[i]) == Ok(c)
    ensures RescaledUpTo(speeds, queries, boardType, t, scaled.(columns := scaled.columns[i := c]), i + 1)
  {
  }

  /** Where the rescaling loop stops at column `i` with an exception, the whole
      rescaling raises it, and the copy is left rescaled up to `i`. */
  lemma RescaledStop(speeds: seq<Effort>, queries: SubsetQueries, boardType: string,
                     t: Ratings, scaled: Ratings, i: nat, e: Error)
    requires Rectangular(t) && AllNonDegenerate(t) && i < |t.columns|
    requires RescaledUpTo(speeds, queries, boardType, t, scaled, i)
    requires ScaleColumnSpec(speeds, queries, boardType, t.index, t.columns[i]) == Err(e)
    ensures ScaleAll(speeds, queries, boardType, t) == Err(e)
    ensures StoppedAt(speeds, queries, boardType, t, scaled, e)
  {
    var steps := ScaledColumns(speeds, queries, boardType, t);
    FirstErrorAllOk(steps[..i], scaled.columns[..i]);
    FirstErrorAt(steps, i, scaled.columns[..i]);
  }

  /** A loop that has rescaled every column leaves exactly the rescaled table. */
  lemma RescaledAll(speeds: seq<Effort>, queries: SubsetQueries, boardType: string,
                    t: Ratings, scaled: Ratings)
    requires Rectangular(t) && AllNonDegenerate(t)
    requires RescaledUpTo(speeds, queries, boardType, t, scaled, |t.columns|)
    ensures ScaleAll(speeds, queries, boardType, t) == Ok(scaled)
  {
    var steps := ScaledColumns(speeds, queries, boardType, t);
    FirstErrorAllOk(steps, scaled.columns);
  }

  /** The dictionary comprehension of `get` on the scaled table: one
      leaderboard per column, or the first exception. */
  function BoardsOf(speeds: seq<Effort>, boardType: string, scaled: Ratings, size: int)
    : Result<map<string, Board>, Error>
    requires Rectangular(scaled)
  {
    match FirstError(BoardResults(speeds, boardType, scaled, size))
    case Err(e) => Err(e)
    case Ok(boards) => Ok(BoardMap(scaled.columns, boards))
  }

  /** `get`: every column rescaled, then one leaderboard per column. */
  function GetSpec(speeds: seq<Effort>, queries: SubsetQueries, boardType: string,
                   t: Ratings, size: int): Result<map<string, Board>, Error>
    requires WellFormed(t) && AllNonDegenerate(t)
  {
    match ScaleAll(speeds, queries, boardType, t)
    case Err(e) => Err(e)
    case Ok(scaled) => BoardsOf(speeds, boardType, scaled, size)
  }

  /** The three in-place steps of `scale_column_ratings` on the non-missing
      ratings: `*= sign`, `-= min()`, `*= 100. / max()`. */
  method RescaleInPlace(athletes: Series, sign: int) returns (scaled: Series)
    requires sign == 1 || sign == -1
    requires Spread(athletes)
    ensures scaled == ScaleSeries(athletes, sign)
  {
    scaled := Times(athletes, sign as real);
    scaled := Minus(scaled, Min(Values(scaled)));
    ShiftedMaxPositive(athletes, sign);
    scaled := Times(scaled, 100.0 / Max(Values(scaled)));
  }

  /** The engine object. `speeds` is the effort table it was built with and
      `subsetQueries` the subset-query registry; the other fields are set by
      each call of `Get`. */
  class Leaderboards {
    var speeds: seq<Effort>
    var subsetQueries: SubsetQueries
    var boardType: string
    var boardDirection: int
    var ratings: Ratings
    var boardSize: int
    var scaledRatings: Ratings

    constructor (speeds: seq<Effort>, subsetQueries: SubsetQueries)
      ensures this.speeds == speeds && this.subsetQueries == subsetQueries
    {
      this.speeds := speeds;
      this.subsetQueries := subsetQueries;
      boardType := "";
      boardDirection := 1;
      ratings := Ratings("index", [], []);
      boardSize := 20;
      scaledRatings := Ratings("index", [], []);
    }

    /** `get`: records the request, rescales a copy of the ratings column by
        column, then builds one leaderboard per column. */
    method Get(boardType: string, ratingsTable: Ratings, boardSize: BoardSize := Size(20))
      returns (r: Result<map<string, Board>, Error>)
      requires WellFormed(ratingsTable) && AllNonDegenerate(ratingsTable)
      modifies this
      ensures speeds == old(speeds) && subsetQueries == old(subsetQueries)
      ensures this.boardType == boardType && boardDirection == BoardDirection(boardType)
      ensures ratings == ratingsTable && this.boardSize == EncodeBoardSize(boardSize)
      ensures r == GetSpec(speeds, subsetQueries, boardType, ratingsTable, EncodeBoardSize(boardSize))
      ensures ScaleAll(speeds, subsetQueries, boardType, ratingsTable).Ok? ==>
        ScaleAll(speeds, subsetQueries, boardType, ratingsTable) == Ok(scaledRatings)
      ensures ScaleAll(speeds, subsetQueries, boardType, ratingsTable).Err? ==>
        StoppedAt(speeds, subsetQueries, boardType, ratingsTable, scaledRatings,
                  ScaleAll(speeds, subsetQueries, boardType, ratingsTable).error)
    {
      this.boardType := boardType;
      boardDirection := BoardDirection(boardType);
      ratings := ratingsTable;
      this.boardSize := EncodeBoardSize(boardSize);

      scaledRatings := ratingsTable;
      // the loop below reads the request from the fields just set
      assert this.boardType == boardType && ratings == ratingsTable;
      var err := ScaleColumns();
      if err.Some? {
        return Err(err.value);
      }
      r := MakeLeaderboards();
    }

    /** The loop of `get` that rescales every column of the copy in turn. */
    method ScaleColumns() returns (err: Option<Error>)
      requires Rectangular(ratings) && AllNonDegenerate(ratings) && scaledRatings == ratings
      requires boardDirection == BoardDirection(boardType)
      modifies this`scaledRatings
      ensures ScaleAll(speeds, subsetQueries, boardType, ratings) ==
        if err.None? then Ok(scaledRatings) else Err(err.value)
      ensures err.Some? ==>
        StoppedAt(speeds, subsetQueries, boardType, ratings, scaledRatings, err.value)
    {
      var i: nat := 0;
      while i < |ratings.columns|
        invariant RescaledUpTo(speeds, subsetQueries, boardType, ratings, scaledRatings, i)
      {
        ghost var before := scaledRatings;
        ghost var expected := ScaleColumnSpec(speeds, subsetQueries, boardType, ratings.index, ratings.columns[i]);
        err := ScaleColumnRatings(i, expected);
        if err.Some? {
          RescaledStop(speeds, subsetQueries, boardType, ratings, scaledRatings, i, err.value);
          return;
        }
        RescaledNext(speeds, subsetQueries, boardType, ratings, before, i, expected.value);
        i := i + 1;
      }
      RescaledAll(speeds, subsetQueries, boardType, ratings, scaledRatings);
      return None;
    }

    /** The dictionary comprehension of `get`: one leaderboard per column. */
    method MakeLeaderboards() returns (r: Result<map<string, Board>, Error>)
      requires Rectangular(scaledRatings)
      ensures r == BoardsOf(speeds, boardType, scaledRatings, boardSize)
    {
      ghost var results := BoardResults(speeds, boardType, scaledRatings, boardSize);
      ghost var built: seq<Board> := [];
      var boards: map<string, Board> := map[];
      var i := 0;
      while i < |scaledRatings.columns|
        invariant 0 <= i <= |scaledRatings.columns|
        invariant FirstError(results[..i]) == Ok(built)
        invariant |built| == i && boards == BoardMap(scaledRatings.columns[..i], built)
      {
        var board := GetNLeaders(i);
        assert results[i] == board;
        match board
        case Err(e) =>
          FirstErrorAt(results, i, built);
          return Err(e);
        case Ok(b) =>
          FirstErrorStep(results, i, built);
          boards := boards[scaledRatings.columns[i].name := b];
          BoardMapStep(scaledRatings.columns, built, b);
          built := built + [b];
        i := i + 1;
      }
      assert results[..i] == results;
      assert scaledRatings.columns[..i] == scaledRatings.columns;
      return Ok(boards);
    }

    /** `scale_column_ratings`: rescales column `j` of `scaledRatings` in
        place, or raises before changing anything. */
    method ScaleColumnRatings(j: nat, ghost expected: Result<RatingColumn, Error>) returns (err: Option<Error>)
      requires j < |scaledRatings.columns| && |scaledRatings.columns[j].cells| == |scaledRatings.index|
      requires NonDegenerate(scaledRatings.columns[j].cells)
      requires boardDirection == BoardDirection(boardType)
      requires expected == ScaleColumnSpec(speeds, subsetQueries, boardType, scaledRatings.index, scaledRatings.columns[j])
      modifies this`scaledRatings
      ensures match expected
        case Ok(c) => err == None && scaledRatings == old(scaledRatings).(columns := old(scaledRatings).columns[j := c])
        case Err(e) => err == Some(e) && scaledRatings == old(scaledRatings)
    {
      var column := scaledRatings.columns[j];
      var athletes := DropNa(scaledRatings.index, column.cells);
      NonDegenerateSpread(scaledRatings.index, column.cells);
      var orientation := Orientation(speeds, subsetQueries, boardType, athletes, column.name);
      if orientation.Err? {
        assert ScaleSign(speeds, subsetQueries, boardType, scaledRatings.index, column) == Err(orientation.error);
        return Some(orientation.error);
      }
      var sign := boardDirection * orientation.value;
      assert ScaleSign(speeds, subsetQueries, boardType, scaledRatings.index, column) == Ok(sign);
      var scaled := RescaleInPlace(athletes, sign);
      scaledRatings := scaledRatings.(columns := scaledRatings.columns[j := column.(cells := Aligned(scaledRatings.index, scaled))]);
      return None;
    }

    /** `get_n_leaders`: the leaderboard of scaled column `j`. */
    method GetNLeaders(j: nat) returns (r: Result<Board, Error>)
      requires j < |scaledRatings.columns| && |scaledRatings.columns[j].cells| == |scaledRatings.index|
      ensures r == NLeadersSpec(speeds, boardType, scaledRatings.indexName, scaledRatings.index, scaledRatings.columns[j], boardSize)
    {
      var column := scaledRatings.columns[j];
      var goodRatings := DropNa(scaledRatings.index, column.cells);
      var sortedIndices := Argsort(Values(goodRatings));
      var nLeaders := Leaders(goodRatings, sortedIndices, boardSize);
      var group := GroupKey(boardType);
      if group.None? {
        return Err(UnknownGroupColumn(boardType));
      }
      if scaledRatings.indexName != boardType + "_id" {
        return Err(MergeKeyMissing(boardType + "_id"));
      }
      assert NLeadersSpec(speeds, boardType, scaledRatings.indexName, scaledRatings.index, column, boardSize) ==
        RankBoard(goodRatings, sortedIndices, boardSize, speeds, group.value, column.name);
      var worstRank := if boardSize == -1 then |nLeaders| else boardSize;
      var ranks := if worstRank > 0 then worstRank else 0;
      if ranks != |nLeaders| {
        if nLeaders == [] {
          return Ok(seq(ranks, i requires 0 <= i < ranks => Blank(i + 1)));
        }
        return Err(RankLengthMismatch(column.name, |nLeaders|, ranks));
      }
      var efforts := speeds;
      var board := seq(|nLeaders|, i requires 0 <= i < |nLeaders| =>
        Entry(i + 1, nLeaders[i].0, nLeaders[i].1, MeanSpeedOf(efforts, group.value, nLeaders[i].0)));
      return Ok(board);
    }
  }
}
