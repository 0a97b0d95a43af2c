/** What `get_n_leaders` guarantees about one leaderboard, for every ascending
    argsort (np.argsort leaves the order of tied ratings unspecified). */
module BoardProperties {
  import opened Frames
  import opened Series
  import opened Ranking

  /** The number of rows the slice `sorted[-1:-size-1:-1]` takes from `n`
      ratings: `size` of them when `size` is a count, all but the lowest for
      'all' (-1), and `n + size` for a more negative size. */
  function SliceCount(n: nat, size: int): nat
  {
    if size >= 0 then (if size <= n then size else n)
    else if size == -1 then (if n > 0 then n - 1 else 0)
    else (if n + size > 0 then n + size else 0)
  }

  /** Numbering the rows 1..worst_rank raises exactly when more ranks are
      requested than there are rated entities (and there is at least one), or
      when a size below -1 still selects rows. */
  lemma RankBoardErrors(good: Series, order: seq<nat>, size: int, speeds: seq<Effort>,
                        key: Effort -> Id, name: string)
    requires IsArgsort(Values(good), order)
    ensures RankBoard(good, order, size, speeds, key, name).Err? <==>
      (size > |good| && |good| > 0) || (size < -1 && |good| + size > 0)
    ensures RankBoard(good, order, size, speeds, key, name).Err? ==>
      RankBoard(good, order, size, speeds, key, name) ==
        Err(RankLengthMismatch(name, SliceCount(|good|, size), if size > 0 then size else 0))
  {
  }

  /** Without any rated entity, a numeric size n > 0 gives n blank rows ranked
      1..n, and any other size an empty board. */
  lemma RankBoardBlank(good: Series, order: seq<nat>, size: int, speeds: seq<Effort>,
                       key: Effort -> Id, name: string)
    requires IsArgsort(Values(good), order)
    requires good == []
    ensures RankBoard(good, order, size, speeds, key, name).Ok?
    ensures var board := RankBoard(good, order, size, speeds, key, name).value;
      && |board| == (if size > 0 then size else 0)
      && forall i :: 0 <= i < |board| ==> board[i] == Blank(i + 1)
  {
  }

  /** A successful board has one row per selected entity, best first: row `i`
      has rank `i + 1`, the entity at position `|good| - 1 - i` of the ascending
      order with its score, and that entity's mean speed, missing exactly when
      it has no efforts. */
  lemma RankBoardShape(good: Series, order: seq<nat>, size: int, speeds: seq<Effort>,
                       key: Effort -> Id, name: string)
    requires IsArgsort(Values(good), order)
    requires |good| > 0
    requires RankBoard(good, order, size, speeds, key, name).Ok?
    ensures var board := RankBoard(good, order, size, speeds, key, name).value;
      && |board| == SliceCount(|good|, size)
      && (size >= 0 ==> |board| == size)
      && (forall i :: 0 <= i < |board| ==>
            && board[i].rank == i + 1
            && (board[i].id, board[i].score) == good[order[|good| - 1 - i]]
            && (board[i].averageSpeed.None? <==> SpeedsOf(speeds, key, board[i].id) == [])
            && (board[i].averageSpeed.Some? ==> board[i].averageSpeed.value == Mean(SpeedsOf(speeds, key, board[i].id))))
  {
    var board := RankBoard(good, order, size, speeds, key, name).value;
    forall i | 0 <= i < |board|
      ensures board[i].averageSpeed.None? <==> SpeedsOf(speeds, key, board[i].id) == []
      ensures board[i].averageSpeed.Some? ==> board[i].averageSpeed.value == Mean(SpeedsOf(speeds, key, board[i].id))
    {
      MeanSpeedOfIsMean(speeds, key, board[i].id);
    }
  }

  /** The scores of a board never increase from one row to the next. */
  lemma RankBoardDescending(good: Series, order: seq<nat>, size: int, speeds: seq<Effort>,
                            key: Effort -> Id, name: string)
    requires IsArgsort(Values(good), order)
    requires |good| > 0
    requires RankBoard(good, order, size, speeds, key, name).Ok?
    ensures var board := RankBoard(good, order, size, speeds, key, name).value;
      forall i, j :: 0 <= i <= j < |board| ==> board[j].score <= board[i].score
  {
    var board := RankBoard(good, order, size, speeds, key, name).value;
    var xs := Values(good);
    forall i, j | 0 <= i <= j < |board| ensures board[j].score <= board[i].score {
      var n := |good|;
      assert board[i].score == good[order[n - 1 - i]].1 == xs[order[n - 1 - i]];
      assert board[j].score == good[order[n - 1 - j]].1 == xs[order[n - 1 - j]];
    }
  }

  /** The board holds the best ratings: every rated entity is either on the
      board, with its score, or scores no more than every entity on it. */
  lemma RankBoardHoldsTop(good: Series, order: seq<nat>, size: int, speeds: seq<Effort>,
                          key: Effort -> Id, name: string, p: nat)
    requires IsArgsort(Values(good), order)
    requires RankBoard(good, order, size, speeds, key, name).Ok?
    requires p < |good|
    ensures var board := RankBoard(good, order, size, speeds, key, name).value;
      || (exists i :: 0 <= i < |board| && (board[i].id, board[i].score) == good[p])
      || (forall i :: 0 <= i < |board| ==> good[p].1 <= board[i].score)
  {
    var board := RankBoard(good, order, size, speeds, key, name).value;
    var xs := Values(good);
    var n := |good|;
    ArgsortBijective(xs, order);
    assert p in order;
    var q :| 0 <= q < n && order[q] == p;
    if n - 1 - q < |board| {
      var i := n - 1 - q;
      assert (board[i].id, board[i].score) == good[order[n - 1 - i]];
    } else {
      forall i | 0 <= i < |board| ensures good[p].1 <= board[i].score {
        assert board[i].score == good[order[n - 1 - i]].1 == xs[order[n - 1 - i]];
        assert xs[order[q]] <= xs[order[n - 1 - i]];
      }
    }
  }

  /** When the rated entities are distinct, no entity appears twice on a board. */
  lemma RankBoardDistinct(good: Series, order: seq<nat>, size: int, speeds: seq<Effort>,
                          key: Effort -> Id, name: string)
    requires IsArgsort(Values(good), order)
    requires forall p, q :: 0 <= p < q < |good| ==> good[p].0 != good[q].0
    requires |good| > 0
    requires RankBoard(good, order, size, speeds, key, name).Ok?
    ensures var board := RankBoard(good, order, size, speeds, key, name).value;
      forall i, j :: 0 <= i < j < |board| ==> board[i].id != board[j].id
  {
    var board := RankBoard(good, order, size, speeds, key, name).value;
    var n := |good|;
    ArgsortBijective(Values(good), order);
    forall i, j | 0 <= i < j < |board| ensures board[i].id != board[j].id {
      var a := order[n - 1 - j];
      var b := order[n - 1 - i];
      assert a != b;
      assert board[i].id == good[b].0 && board[j].id == good[a].0;
      if a < b {
        assert good[a].0 != good[b].0;
      } else {
        assert good[b].0 != good[a].0;
      }
    }
  }

  /** The board for 'all' (size -1) lists every rated entity but one: the
      entity first in the ascending order, which has the lowest score. */
  lemma AllBoardOmitsLowest(good: Series, order: seq<nat>, speeds: seq<Effort>,
                            key: Effort -> Id, name: string)
    requires IsArgsort(Values(good), order)
    requires forall p, q :: 0 <= p < q < |good| ==> good[p].0 != good[q].0
    requires |good| > 0
    ensures RankBoard(good, order, -1, speeds, key, name).Ok?
    ensures var board := RankBoard(good, order, -1, speeds, key, name).value;
      && |board| == |good| - 1
      && (forall p :: 0 <= p < |good| ==> good[order[0]].1 <= good[p].1)
      && (forall i :: 0 <= i < |board| ==> board[i].id != good[order[0]].0)
  {
    var xs := Values(good);
    var n := |good|;
    ArgsortBijective(xs, order);
    forall p | 0 <= p < n ensures good[order[0]].1 <= good[p].1 {
      assert p in order;
      var q :| 0 <= q < n && order[q] == p;
      assert xs[order[0]] <= xs[order[q]];
    }
    var board := RankBoard(good, order, -1, speeds, key, name).value;
    forall i | 0 <= i < |board| ensures board[i].id != good[order[0]].0 {
      var b := order[n - 1 - i];
      assert board[i].id == good[b].0;
      assert b != order[0];
      if b < order[0] {
        assert good[b].0 != good[order[0]].0;
      } else {
        assert good[order[0]].0 != good[b].0;
      }
    }
  }
}
