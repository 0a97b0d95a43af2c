/** The pandas and numpy series primitives the leaderboard engine is built from:
    `dropna`, the column-wise arithmetic, `min`/`max`/`idxmax`, label
    alignment, `np.argsort` and Python's negative-step slice. */
module Series {
  import opened Frames

  /** A labelled series: (entity id, value) pairs in index order. */
  type Series = seq<(Id, real)>

  /** The values of a series, in order (`series.values`). Its contract only
      lists them; what they mean is stated about the functions built on it. */
  function Values(s: Series): (r: seq<real>)
    ensures |r| == |s| && forall i :: 0 <= i < |s| ==> r[i] == s[i].1
  {
    seq(|s|, i requires 0 <= i < |s| => s[i].1)
  }

  /** Positions of the non-missing cells, in increasing order. */
  function PresentPositions(cells: seq<Option<real>>): (ps: seq<nat>)
    ensures forall j :: 0 <= j < |ps| ==> ps[j] < |cells| && cells[ps[j]].Some?
    ensures forall j, k :: 0 <= j < k < |ps| ==> ps[j] < ps[k]
  {
    if cells == [] then []
    else
      var init := PresentPositions(cells[..|cells| - 1]);
      init + (if cells[|cells| - 1].Some? then [|cells| - 1] else [])
  }

  /** Every non-missing cell is listed: the position of cell `i` among them. */
  lemma {:induction false} PresentPositionOf(cells: seq<Option<real>>, i: nat) returns (j: nat)
    requires i < |cells| && cells[i].Some?
    ensures j < |PresentPositions(cells)| && PresentPositions(cells)[j] == i
  {
    var init := cells[..|cells| - 1];
    if i == |cells| - 1 {
      j := |PresentPositions(init)|;
    } else {
      assert init[i] == cells[i];
      j := PresentPositionOf(init, i);
    }
  }

  /** `series.dropna()`: the labelled non-missing cells, in index order. The
      second ensures lists them entry by entry; which cells they are is what
      the `PresentPositions` and `PresentPositionOf` contracts say. */
  function DropNa(index: seq<Id>, cells: seq<Option<real>>): (r: Series)
    requires |index| == |cells|
    ensures |r| == |PresentPositions(cells)|
    ensures forall j :: 0 <= j < |r| ==>
      r[j] == (index[PresentPositions(cells)[j]], cells[PresentPositions(cells)[j]].value)
  {
    var ps := PresentPositions(cells);
    seq(|ps|, j requires 0 <= j < |ps| => (index[ps[j]], cells[ps[j]].value))
  }

  /** In-place `series *= c`, as a new value, stated entry by entry; the
      rescaling's meaning is proved in `ScaleSeriesClosedForm` and `ScaledCell`. */
  function Times(s: Series, c: real): (r: Series)
    ensures |r| == |s| && forall i :: 0 <= i < |s| ==> r[i].0 == s[i].0 && r[i].1 == s[i].1 * c
  {
    seq(|s|, i requires 0 <= i < |s| => (s[i].0, s[i].1 * c))
  }

  /** In-place `series -= c`, as a new value, stated entry by entry; the
      rescaling's meaning is proved in `ScaleSeriesClosedForm` and `ScaledCell`. */
  function Minus(s: Series, c: real): (r: Series)
    ensures |r| == |s| && forall i :: 0 <= i < |s| ==> r[i] == (s[i].0, s[i].1 - c)
  {
    seq(|s|, i requires 0 <= i < |s| => (s[i].0, s[i].1 - c))
  }

  /** `series.min()` of a non-empty series: an element no larger than any other. */
  function Min(xs: seq<real>): (m: real)
    requires |xs| > 0
    ensures m in xs
    ensures forall i :: 0 <= i < |xs| ==> m <= xs[i]
  {
    if |xs| == 1 then xs[0]
    else
      var rest := Min(xs[1..]);
      if xs[0] <= rest then xs[0] else rest
  }

  /** `series.max()` of a non-empty series: an element no smaller than any other. */
  function Max(xs: seq<real>): (m: real)
    requires |xs| > 0
    ensures m in xs
    ensures forall i :: 0 <= i < |xs| ==> xs[i] <= m
  {
    if |xs| == 1 then xs[0]
    else
      var rest := Max(xs[1..]);
      if xs[0] >= rest then xs[0] else rest
  }

  /** Position of the first maximal value, whose label `series.idxmax()` returns. */
  function IdxMax(s: Series): (p: nat)
    requires |s| > 0
    ensures p < |s|
    ensures forall i :: 0 <= i < |s| ==> s[i].1 <= s[p].1
    ensures forall i :: 0 <= i < p ==> s[i].1 < s[p].1
  {
    if |s| == 1 then 0
    else
      var q := IdxMax(s[1..]) + 1;
      if s[0].1 >= s[q].1 then 0 else q
  }

  /** The series holds two different values. */
  predicate Spread(s: Series)
  {
    exists i, j :: 0 <= i < |s| && 0 <= j < |s| && s[i].1 < s[j].1
  }

  /** Multiplying by +1 or -1 keeps two different values different. */
  lemma FlipKeepsSpread(s: Series, c: real)
    requires c == 1.0 || c == -1.0
    requires Spread(s)
    ensures Spread(Times(s, c))
  {
    var i, j :| 0 <= i < |s| && 0 <= j < |s| && s[i].1 < s[j].1;
    var r := Times(s, c);
    if c == 1.0 {
      assert r[i].1 < r[j].1;
    } else {
      assert r[j].1 < r[i].1;
    }
  }

  /** A series with two different values has a maximum above its minimum. */
  lemma SpreadWidth(s: Series)
    requires Spread(s)
    ensures Min(Values(s)) < Max(Values(s))
  {
    var i, j :| 0 <= i < |s| && 0 <= j < |s| && s[i].1 < s[j].1;
    assert Values(s)[i] < Values(s)[j];
  }

  /** Subtracting a constant moves the maximum by that constant. */
  lemma MaxMinus(s: Series, c: real)
    requires |s| > 0
    ensures Max(Values(Minus(s, c))) == Max(Values(s)) - c
  {
    var m := Max(Values(s));
    var m' := Max(Values(Minus(s, c)));
    var k :| 0 <= k < |s| && Values(s)[k] == m;
    var k' :| 0 <= k' < |s| && Values(Minus(s, c))[k'] == m';
    assert Values(Minus(s, c))[k] == m - c;
    assert Values(s)[k'] == m' + c;
  }

  /** Label lookup: the value of the first entry carrying label `id`, or None
      (pandas: NaN after alignment) if no entry does. */
  function Lookup(s: Series, id: Id): (r: Option<real>)
    ensures r.None? <==> forall i :: 0 <= i < |s| ==> s[i].0 != id
    ensures r.Some? ==> exists i :: 0 <= i < |s| && s[i] == (id, r.value)
  {
    if s == [] then None
    else if s[0].0 == id then Some(s[0].1)
    else
      var r := Lookup(s[1..], id);
      assert forall i :: 1 <= i < |s| ==> s[i] == s[1..][i - 1];
      r
  }

  /** Assigning a series into a frame column aligns it on the frame's index. */
  function Aligned(index: seq<Id>, s: Series): (r: seq<Option<real>>)
    ensures |r| == |index|
  {
    seq(|index|, i requires 0 <= i < |index| => Lookup(s, index[i]))
  }

  /** In a series with distinct labels, looking a label up finds its entry. */
  lemma LookupDistinct(s: Series, j: nat)
    requires j < |s|
    requires forall p, q :: 0 <= p < q < |s| ==> s[p].0 != s[q].0
    ensures Lookup(s, s[j].0) == Some(s[j].1)
  {
  }

  function Indices(n: nat): (r: seq<nat>)
    ensures |r| == n && forall i :: 0 <= i < n ==> r[i] == i
  {
    seq(n, i requires 0 <= i < n => i)
  }

  /** `order` is an ascending argsort of `xs`: a permutation of the positions
      of `xs` listing them by non-decreasing value, ties in any order. */
  predicate IsArgsort(xs: seq<real>, order: seq<nat>)
  {
    && |order| == |xs|
    && (forall p :: 0 <= p < |order| ==> order[p] < |xs|)
    && multiset(order) == multiset(Indices(|xs|))
    && (forall p, q :: 0 <= p <= q < |order| ==> xs[order[p]] <= xs[order[q]])
  }

  /** Inserts position `i` after every position whose value is at most `xs[i]`. */
  function InsertByValue(xs: seq<real>, i: nat, sorted: seq<nat>): (r: seq<nat>)
    requires i < |xs|
    requires forall p :: 0 <= p < |sorted| ==> sorted[p] < |xs|
    ensures |r| == |sorted| + 1
    ensures forall p :: 0 <= p < |r| ==> r[p] < |xs|
  {
    if sorted == [] then [i]
    else if xs[i] < xs[sorted[0]] then [i] + sorted
    else [sorted[0]] + InsertByValue(xs, i, sorted[1..])
  }

  /** Insertion adds exactly position `i`. */
  lemma {:induction false} InsertByValueCounts(xs: seq<real>, i: nat, sorted: seq<nat>)
    requires i < |xs|
    requires forall p :: 0 <= p < |sorted| ==> sorted[p] < |xs|
    ensures multiset(InsertByValue(xs, i, sorted)) == multiset(sorted) + multiset{i}
  {
    if sorted != [] && xs[i] >= xs[sorted[0]] {
      InsertByValueCounts(xs, i, sorted[1..]);
      assert sorted == [sorted[0]] + sorted[1..];
    }
  }

  /** A lower bound on every value survives insertion of a value above it. */
  lemma {:induction false} InsertByValueBounded(xs: seq<real>, i: nat, sorted: seq<nat>, lb: real)
    requires i < |xs| && lb <= xs[i]
    requires forall p :: 0 <= p < |sorted| ==> sorted[p] < |xs| && lb <= xs[sorted[p]]
    ensures forall p :: 0 <= p < |InsertByValue(xs, i, sorted)| ==> lb <= xs[InsertByValue(xs, i, sorted)[p]]
  {
    if sorted != [] && xs[i] >= xs[sorted[0]] {
      InsertByValueBounded(xs, i, sorted[1..], lb);
    }
  }

  /** Inserting into an ascending argsort keeps it ascending. */
  lemma {:induction false} InsertByValueSorted(xs: seq<real>, i: nat, sorted: seq<nat>)
    requires i < |xs|
    requires forall p :: 0 <= p < |sorted| ==> sorted[p] < |xs|
    requires forall p, q :: 0 <= p <= q < |sorted| ==> xs[sorted[p]] <= xs[sorted[q]]
    ensures forall p, q :: 0 <= p <= q < |InsertByValue(xs, i, sorted)| ==>
      xs[InsertByValue(xs, i, sorted)[p]] <= xs[InsertByValue(xs, i, sorted)[q]]
  {
    var r := InsertByValue(xs, i, sorted);
    if sorted == [] {
    } else if xs[i] < xs[sorted[0]] {
      forall p, q | 0 <= p <= q < |r| ensures xs[r[p]] <= xs[r[q]] {
        if p == 0 && q > 0 {
          assert r[q] == sorted[q - 1];
          assert xs[sorted[0]] <= xs[sorted[q - 1]];
        }
      }
    } else {
      var rest := InsertByValue(xs, i, sorted[1..]);
      InsertByValueSorted(xs, i, sorted[1..]);
      InsertByValueBounded(xs, i, sorted[1..], xs[sorted[0]]);
      forall p, q | 0 <= p <= q < |r| ensures xs[r[p]] <= xs[r[q]] {
        if p == 0 {
          if q > 0 { assert r[q] == rest[q - 1]; }
        } else {
          assert r[p] == rest[p - 1] && r[q] == rest[q - 1];
        }
      }
    }
  }

  /** Stable insertion argsort of the first `n` positions. */
  function ArgsortPrefix(xs: seq<real>, n: nat): (r: seq<nat>)
    requires n <= |xs|
    ensures multiset(r) == multiset(Indices(n))
    ensures |r| == n
    ensures forall p :: 0 <= p < |r| ==> r[p] < |xs|
    ensures forall p, q :: 0 <= p <= q < |r| ==> xs[r[p]] <= xs[r[q]]
  {
    if n == 0 then []
    else
      var r := InsertByValue(xs, n - 1, ArgsortPrefix(xs, n - 1));
      InsertByValueCounts(xs, n - 1, ArgsortPrefix(xs, n - 1));
      InsertByValueSorted(xs, n - 1, ArgsortPrefix(xs, n - 1));
      assert Indices(n) == Indices(n - 1) + [n - 1];
      assert |r| == |multiset(r)|;
      r
  }

  /** `np.argsort(values)`: one ascending argsort (this one is stable; every
      property of the leaderboards is proved for any tie order). */
  function Argsort(xs: seq<real>): (r: seq<nat>)
    ensures IsArgsort(xs, r)
  {
    ArgsortPrefix(xs, |xs|)
  }

  /** The multiplicity of `v` in `Indices(n)`. */
  lemma {:induction false} IndicesCount(n: nat, v: nat)
    ensures multiset(Indices(n))[v] == if v < n then 1 else 0
  {
    if n > 0 {
      IndicesCount(n - 1, v);
      assert Indices(n) == Indices(n - 1) + [n - 1];
    }
  }

  /** An argsort lists every position exactly once. */
  lemma ArgsortBijective(xs: seq<real>, order: seq<nat>)
    requires IsArgsort(xs, order)
    ensures forall p, q :: 0 <= p < q < |order| ==> order[p] != order[q]
    ensures forall v :: 0 <= v < |xs| ==> v in order
  {
    forall p, q | 0 <= p < q < |order| ensures order[p] != order[q] {
      if order[p] == order[q] {
        var v := order[p];
        assert order == order[..q] + order[q..];
        assert v in multiset(order[..q]);
        assert order[q..][0] == v;
        assert multiset(order)[v] >= 2;
        IndicesCount(|xs|, v);
        assert false;
      }
    }
    forall v | 0 <= v < |xs| ensures v in order {
      IndicesCount(|xs|, v);
      assert v in multiset(order);
    }
  }

  /** CPython's adjustment of a slice bound for a negative step. */
  function AdjustForNegativeStep(x: int, n: nat): (r: int)
    ensures -1 <= r < n
  {
    if x < 0 then (if x + n < 0 then -1 else x + n)
    else if x >= n then n - 1
    else x
  }

  /** Positions selected by `a[start:stop:-1]` on a sequence of length `n`. */
  function ReverseSlice(n: nat, start: int, stop: int): (r: seq<nat>)
  {
    var b := AdjustForNegativeStep(start, n);
    var e := AdjustForNegativeStep(stop, n);
    var count := if b > e then b - e else 0;
    seq(count, i requires 0 <= i < count => (b - i) as nat)
  }

  /** `sorted[-1:-size-1:-1]`: the positions of an ascending order that the
      leaderboard takes, best first. */
  function TopSlice(n: nat, size: int): (r: seq<nat>)
    ensures forall i :: 0 <= i < |r| ==> r[i] == n - 1 - i
    ensures |r| == if size >= 0 then (if size <= n then size else n)
                   else if size == -1 then (if n > 0 then n - 1 else 0)
                   else (if n + size > 0 then n + size else 0)
  {
    ReverseSlice(n, -1, -size - 1)
  }
}
