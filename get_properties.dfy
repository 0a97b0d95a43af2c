/** What `Leaderboards.get` returns: one leaderboard per feature column, keyed
    by the column name, each built from that column's rescaled ratings; or the
    first exception a column raises. */
module GetProperties {
  import opened Frames
  import opened Series
  import opened Ranking
  import opened RankingProperties
  import opened BoardProperties

  /** The feature names of a ratings table. */
  function ColumnNames(columns: seq<RatingColumn>): set<string>
  {
    set j | 0 <= j < |columns| :: columns[j].name
  }

  /** The dictionary has one key per column name. */
  lemma {:induction false} BoardMapKeys(columns: seq<RatingColumn>, boards: seq<Board>)
    requires |boards| == |columns|
    ensures BoardMap(columns, boards).Keys == ColumnNames(columns)
  {
    if columns != [] {
      var n := |columns| - 1;
      BoardMapKeys(columns[..n], boards[..n]);
      forall name ensures name in ColumnNames(columns) <==> name in ColumnNames(columns[..n]) || name == columns[n].name {
        if name in ColumnNames(columns) && name != columns[n].name {
          var j :| 0 <= j < |columns| && columns[j].name == name;
          assert columns[..n][j].name == name;
        }
        if name in ColumnNames(columns[..n]) {
          var j :| 0 <= j < n && columns[..n][j].name == name;
          assert columns[j].name == name;
        }
      }
    }
  }

  /** With distinct column names, each column's key holds that column's board. */
  lemma {:induction false} BoardMapAt(columns: seq<RatingColumn>, boards: seq<Board>, j: nat)
    requires |boards| == |columns| && j < |columns|
    requires forall p, q :: 0 <= p < q < |columns| ==> columns[p].name != columns[q].name
    ensures columns[j].name in BoardMap(columns, boards)
    ensures BoardMap(columns, boards)[columns[j].name] == boards[j]
  {
    var n := |columns| - 1;
    if j < n {
      BoardMapAt(columns[..n], boards[..n], j);
      assert columns[..n][j] == columns[j] && boards[..n][j] == boards[j];
      assert columns[j].name != columns[n].name;
    }
  }

  /** A successful rescaling of the table rescaled every column on its own. */
  lemma ScaleAllColumns(speeds: seq<Effort>, queries: SubsetQueries, boardType: string, t: Ratings)
    requires Rectangular(t) && AllNonDegenerate(t)
    requires ScaleAll(speeds, queries, boardType, t).Ok?
    ensures forall j :: 0 <= j < |t.columns| ==>
      ScaleColumnSpec(speeds, queries, boardType, t.index, t.columns[j]) ==
        Ok(ScaleAll(speeds, queries, boardType, t).value.columns[j])
  {
    var rs := ScaledColumns(speeds, queries, boardType, t);
    FirstErrorOk(rs);
    forall j | 0 <= j < |t.columns|
      ensures ScaleColumnSpec(speeds, queries, boardType, t.index, t.columns[j]) ==
        Ok(ScaleAll(speeds, queries, boardType, t).value.columns[j])
    {
      assert rs[j] == ScaleColumnSpec(speeds, queries, boardType, t.index, t.columns[j]);
    }
  }

  /** A failed rescaling raised the exception of the first column that failed. */
  lemma ScaleAllError(speeds: seq<Effort>, queries: SubsetQueries, boardType: string, t: Ratings)
    returns (j: nat)
    requires Rectangular(t) && AllNonDegenerate(t)
    requires ScaleAll(speeds, queries, boardType, t).Err?
    ensures j < |t.columns|
    ensures ScaleColumnSpec(speeds, queries, boardType, t.index, t.columns[j]) ==
      Err(ScaleAll(speeds, queries, boardType, t).error)
    ensures forall k :: 0 <= k < j ==> ScaleColumnSpec(speeds, queries, boardType, t.index, t.columns[k]).Ok?
  {
    var rs := ScaledColumns(speeds, queries, boardType, t);
    j := FirstErrorErr(rs);
    assert rs[j] == ScaleColumnSpec(speeds, queries, boardType, t.index, t.columns[j]);
    forall k | 0 <= k < j ensures ScaleColumnSpec(speeds, queries, boardType, t.index, t.columns[k]).Ok? {
      assert rs[k] == ScaleColumnSpec(speeds, queries, boardType, t.index, t.columns[k]);
    }
  }

  /** A successful `get` maps exactly the column names, and the board under
      each name is `get_n_leaders` of that column after rescaling. */
  lemma GetBoards(speeds: seq<Effort>, queries: SubsetQueries, boardType: string, t: Ratings, size: int)
    requires WellFormed(t) && AllNonDegenerate(t)
    requires GetSpec(speeds, queries, boardType, t, size).Ok?
    ensures GetSpec(speeds, queries, boardType, t, size).value.Keys == ColumnNames(t.columns)
    ensures forall j :: 0 <= j < |t.columns| ==>
      && ScaleColumnSpec(speeds, queries, boardType, t.index, t.columns[j]).Ok?
      && t.columns[j].name in GetSpec(speeds, queries, boardType, t, size).value
      && NLeadersSpec(speeds, boardType, t.indexName, t.index, ScaleColumnSpec(speeds, queries, boardType, t.index, t.columns[j]).value, size)
           == Ok(GetSpec(speeds, queries, boardType, t, size).value[t.columns[j].name])
  {
    var scaled := ScaleAll(speeds, queries, boardType, t).value;
    var boards := FirstError(BoardResults(speeds, boardType, scaled, size)).value;
    assert GetSpec(speeds, queries, boardType, t, size).value == BoardMap(scaled.columns, boards);
    BoardMapKeys(scaled.columns, boards);
    SameNames(scaled.columns, t.columns);
    forall j | 0 <= j < |t.columns|
      ensures ScaleColumnSpec(speeds, queries, boardType, t.index, t.columns[j]).Ok?
      ensures t.columns[j].name in GetSpec(speeds, queries, boardType, t, size).value
      ensures NLeadersSpec(speeds, boardType, t.indexName, t.index, ScaleColumnSpec(speeds, queries, boardType, t.index, t.columns[j]).value, size)
           == Ok(GetSpec(speeds, queries, boardType, t, size).value[t.columns[j].name])
    {
      GetBoardAt(speeds, queries, boardType, t, size, j);
    }
  }

  /** Columns with the same names, position by position, have the same name set. */
  lemma SameNames(a: seq<RatingColumn>, b: seq<RatingColumn>)
    requires |a| == |b| && forall j :: 0 <= j < |a| ==> a[j].name == b[j].name
    ensures ColumnNames(a) == ColumnNames(b)
  {
    forall name ensures name in ColumnNames(a) <==> name in ColumnNames(b) {
      if name in ColumnNames(a) {
        var j :| 0 <= j < |a| && a[j].name == name;
        assert b[j].name == name;
      }
      if name in ColumnNames(b) {
        var j :| 0 <= j < |b| && b[j].name == name;
        assert a[j].name == name;
      }
    }
  }

  lemma GetBoardAt(speeds: seq<Effort>, queries: SubsetQueries, boardType: string, t: Ratings, size: int, j: nat)
    requires WellFormed(t) && AllNonDegenerate(t)
    requires GetSpec(speeds, queries, boardType, t, size).Ok? && j < |t.columns|
    ensures ScaleColumnSpec(speeds, queries, boardType, t.index, t.columns[j]).Ok?
    ensures t.columns[j].name in GetSpec(speeds, queries, boardType, t, size).value
    ensures NLeadersSpec(speeds, boardType, t.indexName, t.index, ScaleColumnSpec(speeds, queries, boardType, t.index, t.columns[j]).value, size)
         == Ok(GetSpec(speeds, queries, boardType, t, size).value[t.columns[j].name])
  {
    var scaled := ScaleAll(speeds, queries, boardType, t).value;
    ScaleAllColumns(speeds, queries, boardType, t);
    assert ScaleColumnSpec(speeds, queries, boardType, t.index, t.columns[j]) == Ok(scaled.columns[j]);
    var rs := BoardResults(speeds, boardType, scaled, size);
    var boards := FirstError(rs).value;
    FirstErrorOk(rs);
    assert rs[j] == NLeadersSpec(speeds, boardType, scaled.indexName, scaled.index, scaled.columns[j], size);
    assert rs[j] == Ok(boards[j]);
    assert scaled.index == t.index && scaled.columns[j].name == t.columns[j].name;
    var m := GetSpec(speeds, queries, boardType, t, size).value;
    assert m == BoardMap(scaled.columns, boards);
    BoardMapAt(scaled.columns, boards, j);
    assert m[t.columns[j].name] == boards[j];
  }

  /** A failed `get` raised the exception of some column's rescaling or of
      some rescaled column's leaderboard. */
  lemma GetError(speeds: seq<Effort>, queries: SubsetQueries, boardType: string, t: Ratings, size: int)
    returns (j: nat)
    requires WellFormed(t) && AllNonDegenerate(t)
    requires GetSpec(speeds, queries, boardType, t, size).Err?
    ensures j < |t.columns|
    ensures var e := GetSpec(speeds, queries, boardType, t, size).error;
      || ScaleColumnSpec(speeds, queries, boardType, t.index, t.columns[j]) == Err(e)
      || (&& ScaleColumnSpec(speeds, queries, boardType, t.index, t.columns[j]).Ok?
          && NLeadersSpec(speeds, boardType, t.indexName, t.index, ScaleColumnSpec(speeds, queries, boardType, t.index, t.columns[j]).value, size) == Err(e))
  {
    if ScaleAll(speeds, queries, boardType, t).Err? {
      j := ScaleAllError(speeds, queries, boardType, t);
    } else {
      var scaled := ScaleAll(speeds, queries, boardType, t).value;
      ScaleAllColumns(speeds, queries, boardType, t);
      var rs := BoardResults(speeds, boardType, scaled, size);
      j := FirstErrorErr(rs);
      assert rs[j] == NLeadersSpec(speeds, boardType, scaled.indexName, scaled.index, scaled.columns[j], size);
    }
  }

  /** A successful `get` of a table with a column was given a table whose
      index is named after the board's id column. */
  lemma GetIndexName(speeds: seq<Effort>, queries: SubsetQueries, boardType: string, t: Ratings, size: int)
    requires WellFormed(t) && AllNonDegenerate(t) && |t.columns| > 0
    requires GetSpec(speeds, queries, boardType, t, size).Ok?
    ensures t.indexName == boardType + "_id"
  {
    GetBoardAt(speeds, queries, boardType, t, size, 0);
  }

  /** Once every column is rescaled, a table whose index is not named
      `'{board_type}_id'` makes the merge of the first board raise. */
  lemma GetIndexMismatch(speeds: seq<Effort>, queries: SubsetQueries, boardType: string, t: Ratings, size: int)
    requires WellFormed(t) && AllNonDegenerate(t) && |t.columns| > 0
    requires ScaleAll(speeds, queries, boardType, t).Ok? && GroupKey(boardType).Some?
    requires t.indexName != boardType + "_id"
    ensures GetSpec(speeds, queries, boardType, t, size) == Err(MergeKeyMissing(boardType + "_id"))
  {
    var scaled := ScaleAll(speeds, queries, boardType, t).value;
    var rs := BoardResults(speeds, boardType, scaled, size);
    assert rs[0] == Err(MergeKeyMissing(boardType + "_id"));
    assert rs[..0] == [];
    FirstErrorAt(rs, 0, []);
  }

  /** An unknown board type (no `{board_type}_id` column) makes `get` raise as
      soon as the table has a column. */
  lemma GetUnknownBoardType(speeds: seq<Effort>, queries: SubsetQueries, boardType: string, t: Ratings, size: int)
    requires WellFormed(t) && AllNonDegenerate(t)
    requires boardType != "athlete" && boardType != "segment" && |t.columns| > 0
    ensures GetSpec(speeds, queries, boardType, t, size).Err?
  {
    var rs := ScaledColumns(speeds, queries, boardType, t);
    var col := t.columns[0];
    var present := DropNa(t.index, col.cells);
    NonDegenerateSpread(t.index, col.cells);
    OrientationErrors(speeds, queries, boardType, present, col.name);
    assert rs[0] == ScaleColumnSpec(speeds, queries, boardType, t.index, col);
    assert rs[0].Err?;
    assert rs[..0] == [];
    FirstErrorAt(rs, 0, []);
  }

  /** Only the presence pattern of a column decides which positions `dropna` keeps. */
  lemma {:induction false} SamePresence(a: seq<Option<real>>, b: seq<Option<real>>)
    requires |a| == |b|
    requires forall i :: 0 <= i < |a| ==> (a[i].Some? <==> b[i].Some?)
    ensures PresentPositions(a) == PresentPositions(b)
  {
    if a != [] {
      var n := |a| - 1;
      SamePresence(a[..n], b[..n]);
    }
  }

  /** A numeric board size that `get` accepts is at most the number of rated
      entities in every column. */
  lemma GetSizeBound(speeds: seq<Effort>, queries: SubsetQueries, boardType: string, t: Ratings, size: int)
    requires WellFormed(t) && AllNonDegenerate(t)
    requires GetSpec(speeds, queries, boardType, t, size).Ok?
    ensures forall j :: 0 <= j < |t.columns| ==> size <= |PresentPositions(t.columns[j].cells)|
  {
    GetBoards(speeds, queries, boardType, t, size);
    forall j | 0 <= j < |t.columns| ensures size <= |PresentPositions(t.columns[j].cells)| {
      var col := t.columns[j];
      var scaled := ScaleColumnSpec(speeds, queries, boardType, t.index, col).value;
      ScaledColumnRange(speeds, queries, boardType, t.index, col);
      SamePresence(scaled.cells, col.cells);
      var good := DropNa(t.index, scaled.cells);
      var key := GroupKey(boardType).value;
      assert NLeadersSpec(speeds, boardType, t.indexName, t.index, scaled, size).Ok?;
      RankBoardErrors(good, Argsort(Values(good)), size, speeds, key, scaled.name);
    }
  }
}
