/** Shared vocabulary of the modelling code: option and result values, the effort
    table, and the group-by-mean that pandas performs for `groupby(...).mean()`. */
module Frames {

  datatype Option<T> = None | Some(value: T)

  datatype Result<T, E> = Ok(value: T) | Err(error: E)

  /** Athlete and segment identifiers are integers. */
  type Id = int

  /** One row of the effort table: who rode which segment, how fast, and when
      (the date as seconds since the Unix epoch). */
  datatype Effort = Effort(athleteId: Id, segmentId: Id, averageSpeed: real, date: int)

  function AthleteKey(e: Effort): Id { e.athleteId }

  function SegmentKey(e: Effort): Id { e.segmentId }

  function PairKey(e: Effort): (Id, Id) { (e.athleteId, e.segmentId) }

  /** `df.query(...)`: the rows satisfying a predicate, in table order. */
  function Filter(efforts: seq<Effort>, keep: Effort -> bool): (r: seq<Effort>)
    ensures |r| <= |efforts|
  {
    if efforts == [] then []
    else Filter(efforts[..|efforts| - 1], keep) + (if keep(efforts[|efforts| - 1]) then [efforts[|efforts| - 1]] else [])
  }

  /** Sum of a sequence of reals, adding from the front. */
  function Sum(xs: seq<real>): real
  {
    if xs == [] then 0.0 else Sum(xs[..|xs| - 1]) + xs[|xs| - 1]
  }

  /** Arithmetic mean of a non-empty sequence. */
  function Mean(xs: seq<real>): real
    requires |xs| > 0
  {
    Sum(xs) / |xs| as real
  }

  /** Reference definition: the speeds of the efforts whose key is `k`, in table order. */
  function SpeedsOf<K(==)>(efforts: seq<Effort>, key: Effort -> K, k: K): seq<real>
  {
    if efforts == [] then []
    else
      var last := efforts[|efforts| - 1];
      SpeedsOf(efforts[..|efforts| - 1], key, k) + (if key(last) == k then [last.averageSpeed] else [])
  }

  /** Running sum and count of one group. */
  datatype Acc = Acc(sum: real, count: nat)

  /** One pass over the table accumulating sum and count per key, as a hash
      group-by does. */
  function GroupAcc<K(==)>(efforts: seq<Effort>, key: Effort -> K): map<K, Acc>
  {
    if efforts == [] then map[]
    else
      var m := GroupAcc(efforts[..|efforts| - 1], key);
      var last := efforts[|efforts| - 1];
      var k := key(last);
      m[k := if k in m then Acc(m[k].sum + last.averageSpeed, m[k].count + 1)
             else Acc(last.averageSpeed, 1)]
  }

  /** The group's mean speed, or None (pandas: NaN / absent) when the key has no rows. */
  function MeanSpeedOf<K(==)>(efforts: seq<Effort>, key: Effort -> K, k: K): Option<real>
  {
    var m := GroupAcc(efforts, key);
    if k in m && m[k].count > 0 then Some(m[k].sum / m[k].count as real) else None
  }

  /** The distinct keys of the table in order of first occurrence. */
  function DistinctKeys<K(==)>(efforts: seq<Effort>, key: Effort -> K): seq<K>
  {
    if efforts == [] then []
    else
      var ks := DistinctKeys(efforts[..|efforts| - 1], key);
      var k := key(efforts[|efforts| - 1]);
      if k in ks then ks else ks + [k]
  }

  /** The group means of the given keys, skipping keys that have no rows. */
  function KeyMeans<K(==)>(efforts: seq<Effort>, key: Effort -> K, ks: seq<K>): seq<real>
  {
    if ks == [] then []
    else
      var rest := KeyMeans(efforts, key, ks[1..]);
      match MeanSpeedOf(efforts, key, ks[0])
      case Some(m) => [m] + rest
      case None => rest
  }

  /** `groupby(key).average_speed.mean().mean()`: the mean over groups of the
      group means, or None (NaN) for an empty table. */
  function MeanOfMeans<K(==)>(efforts: seq<Effort>, key: Effort -> K): Option<real>
  {
    var means := KeyMeans(efforts, key, DistinctKeys(efforts, key));
    if means == [] then None else Some(Mean(means))
  }

  lemma SumAppend(xs: seq<real>, x: real)
    ensures Sum(xs + [x]) == Sum(xs) + x
  {
    assert (xs + [x])[..|xs|] == xs;
  }

  /** The one-pass accumulator agrees with the reference definition: a key is
      present exactly when it has speeds, and then holds their sum and count. */
  lemma {:induction false} GroupAccIsSumAndCount<K>(efforts: seq<Effort>, key: Effort -> K, k: K)
    ensures k in GroupAcc(efforts, key) <==> |SpeedsOf(efforts, key, k)| > 0
    ensures k in GroupAcc(efforts, key) ==>
      GroupAcc(efforts, key)[k] == Acc(Sum(SpeedsOf(efforts, key, k)), |SpeedsOf(efforts, key, k)|)
  {
    if efforts != [] {
      var init := efforts[..|efforts| - 1];
      var last := efforts[|efforts| - 1];
      GroupAccIsSumAndCount(init, key, k);
      if key(last) == k {
        SumAppend(SpeedsOf(init, key, k), last.averageSpeed);
        assert SpeedsOf(efforts, key, k) == SpeedsOf(init, key, k) + [last.averageSpeed];
      } else {
        assert SpeedsOf(efforts, key, k) == SpeedsOf(init, key, k) + [];
        assert SpeedsOf(efforts, key, k) == SpeedsOf(init, key, k);
        assert k in GroupAcc(efforts, key) <==> k in GroupAcc(init, key);
        assert k in GroupAcc(efforts, key) ==> GroupAcc(efforts, key)[k] == GroupAcc(init, key)[k];
      }
    }
  }

  /** The group mean is the arithmetic mean of the group's speeds, and is
      missing exactly when the key has no efforts. */
  lemma MeanSpeedOfIsMean<K>(efforts: seq<Effort>, key: Effort -> K, k: K)
    ensures MeanSpeedOf(efforts, key, k).None? <==> SpeedsOf(efforts, key, k) == []
    ensures MeanSpeedOf(efforts, key, k).Some? ==>
      MeanSpeedOf(efforts, key, k).value == Mean(SpeedsOf(efforts, key, k))
  {
    GroupAccIsSumAndCount(efforts, key, k);
  }

  /** A key has speeds exactly when some effort carries it. */
  lemma {:induction false} SpeedsOfNonEmpty<K>(efforts: seq<Effort>, key: Effort -> K, k: K)
    ensures |SpeedsOf(efforts, key, k)| > 0 <==> exists i :: 0 <= i < |efforts| && key(efforts[i]) == k
  {
    if efforts != [] {
      var init := efforts[..|efforts| - 1];
      SpeedsOfNonEmpty(init, key, k);
      if exists i :: 0 <= i < |efforts| && key(efforts[i]) == k {
        var i :| 0 <= i < |efforts| && key(efforts[i]) == k;
        if i < |init| { assert key(init[i]) == k; }
      }
      if exists i :: 0 <= i < |init| && key(init[i]) == k {
        var i :| 0 <= i < |init| && key(init[i]) == k;
        assert key(efforts[i]) == k;
      }
    }
  }

  /** The distinct keys are exactly the keys that occur, each listed once. */
  lemma {:induction false} DistinctKeysSpec<K>(efforts: seq<Effort>, key: Effort -> K)
    ensures forall k :: k in DistinctKeys(efforts, key) <==> exists i :: 0 <= i < |efforts| && key(efforts[i]) == k
    ensures forall p, q :: 0 <= p < q < |DistinctKeys(efforts, key)| ==>
      DistinctKeys(efforts, key)[p] != DistinctKeys(efforts, key)[q]
  {
    if efforts != [] {
      var init := efforts[..|efforts| - 1];
      DistinctKeysSpec(init, key);
      forall k ensures k in DistinctKeys(efforts, key) <==> exists i :: 0 <= i < |efforts| && key(efforts[i]) == k {
        if exists i :: 0 <= i < |efforts| && key(efforts[i]) == k {
          var i :| 0 <= i < |efforts| && key(efforts[i]) == k;
          if i < |init| { assert key(init[i]) == k; }
        }
        if exists i :: 0 <= i < |init| && key(init[i]) == k {
          var i :| 0 <= i < |init| && key(init[i]) == k;
          assert key(efforts[i]) == k;
        }
      }
    }
  }

  /** The mean of the group means exists exactly when the table is non-empty. */
  lemma MeanOfMeansDefined<K>(efforts: seq<Effort>, key: Effort -> K)
    ensures MeanOfMeans(efforts, key).Some? <==> efforts != []
  {
    if efforts != [] {
      OccurringKeyHasMean(efforts, key, key(efforts[0]), 0);
    } else {
      assert DistinctKeys(efforts, key) == [];
    }
  }

  lemma OccurringKeyHasMean<K>(efforts: seq<Effort>, key: Effort -> K, k: K, i: nat)
    requires i < |efforts| && key(efforts[i]) == k
    ensures MeanSpeedOf(efforts, key, k).Some?
    ensures MeanSpeedOf(efforts, key, k).value in KeyMeans(efforts, key, DistinctKeys(efforts, key))
  {
    DistinctKeysSpec(efforts, key);
    assert k in DistinctKeys(efforts, key);
    SpeedsOfNonEmpty(efforts, key, k);
    MeanSpeedOfIsMean(efforts, key, k);
    KeyMeansHasPresent(efforts, key, DistinctKeys(efforts, key), k);
  }

  lemma {:induction false} KeyMeansHasPresent<K>(efforts: seq<Effort>, key: Effort -> K, ks: seq<K>, k: K)
    requires k in ks && MeanSpeedOf(efforts, key, k).Some?
    ensures MeanSpeedOf(efforts, key, k).value in KeyMeans(efforts, key, ks)
  {
    if ks[0] != k {
      KeyMeansHasPresent(efforts, key, ks[1..], k);
    }
  }

  /** `query` keeps an effort as many times as the table holds it when the
      predicate accepts it, and drops it otherwise. */
  lemma {:induction false} FilterCount(efforts: seq<Effort>, keep: Effort -> bool, e: Effort)
    ensures multiset(Filter(efforts, keep))[e] == if keep(e) then multiset(efforts)[e] else 0
  {
    if efforts != [] {
      var n := |efforts| - 1;
      FilterCount(efforts[..n], keep, e);
      assert efforts == efforts[..n] + [efforts[n]];
    }
  }

  lemma FilterMembers(efforts: seq<Effort>, keep: Effort -> bool)
    ensures forall e :: e in Filter(efforts, keep) <==> e in efforts && keep(e)
  {
    forall e ensures e in Filter(efforts, keep) <==> e in efforts && keep(e) {
      FilterCount(efforts, keep, e);
    }
  }

  /** `query` keeps the table order: the kept rows sit at increasing positions
      of the table. */
  lemma {:induction false} FilterPositions(efforts: seq<Effort>, keep: Effort -> bool) returns (pos: seq<nat>)
    ensures |pos| == |Filter(efforts, keep)|
    ensures forall k :: 0 <= k < |pos| ==> pos[k] < |efforts| && Filter(efforts, keep)[k] == efforts[pos[k]]
    ensures forall k, l :: 0 <= k < l < |pos| ==> pos[k] < pos[l]
  {
    if efforts == [] {
      pos := [];
    } else {
      var n := |efforts| - 1;
      var init := FilterPositions(efforts[..n], keep);
      pos := init + (if keep(efforts[n]) then [n] else []);
      forall k | 0 <= k < |pos| ensures pos[k] < |efforts| && Filter(efforts, keep)[k] == efforts[pos[k]] {
        if k < |init| {
          assert Filter(efforts, keep)[k] == Filter(efforts[..n], keep)[k];
        }
      }
    }
  }
}
