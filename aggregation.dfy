/** Per-platform integer sums: `groupby("platform")[metric].sum()` over the
    long table, and the `.get(platform, 0)` default used for display. */
module Aggregation {
  import opened Campaign
  import opened Reshaping
  import opened Filtering

  /** The sum of metric `m` over the rows of platform `p`. */
  function PlatformSum(rows: seq<Observation>, p: Platform, m: Metric): nat
  {
    if rows == [] then 0
    else (if rows[0].platform == p then Count(rows[0], m) else 0) + PlatformSum(rows[1..], p, m)
  }

  predicate Present(rows: seq<Observation>, p: Platform)
  {
    exists i :: 0 <= i < |rows| && rows[i].platform == p
  }

  /** A platform with no rows sums to 0. */
  lemma {:induction false} PlatformSumAbsent(rows: seq<Observation>, p: Platform, m: Metric)
    ensures !Present(rows, p) ==> PlatformSum(rows, p, m) == 0
  {
    if rows != [] && !Present(rows, p) {
      assert rows[0].platform != p;
      forall i | 0 <= i < |rows[1..]| ensures rows[1..][i].platform != p {
        assert rows[1..][i] == rows[i + 1];
      }
      PlatformSumAbsent(rows[1..], p, m);
    }
  }

  /** The groupby-sum: a fold over the rows that adds each row's count to its
      platform's running total, creating the entry on the platform's first
      row. Its keys are exactly the platforms present, and each value is that
      platform's sum. */
  function GroupSum(rows: seq<Observation>, m: Metric): (g: map<Platform, nat>)
    ensures forall p :: p in g <==> Present(rows, p)
    ensures forall p :: p in g ==> g[p] == PlatformSum(rows, p, m)
  {
    if rows == [] then map[]
    else
      var g := GroupSum(rows[1..], m);
      var o := rows[0];
      assert forall i :: 0 <= i < |rows[1..]| ==> rows[1..][i] == rows[i + 1];
      assert forall p :: Present(rows, p) <==> p == o.platform || Present(rows[1..], p) by {
        forall p | Present(rows, p) && p != o.platform ensures Present(rows[1..], p) {
          var i :| 0 <= i < |rows| && rows[i].platform == p;
          assert rows[1..][i - 1].platform == p;
        }
      }
      PlatformSumAbsent(rows[1..], o.platform, m);
      g[o.platform := GetOr(g, o.platform, 0) + Count(o, m)]
  }

  /** The displayed total, `total.get(platform, 0)`. The 0 default agrees
      with summing: whether or not the platform has rows left after
      filtering, the displayed total is the platform's sum. */
  function DisplayedTotal(rows: seq<Observation>, p: Platform, m: Metric): (total: nat)
    ensures total == PlatformSum(rows, p, m)
    ensures !Present(rows, p) ==> total == 0
  {
    PlatformSumAbsent(rows, p, m);
    GetOr(GroupSum(rows, m), p, 0)
  }

  lemma {:induction false} PlatformSumAppend(a: seq<Observation>, b: seq<Observation>, p: Platform, m: Metric)
    ensures PlatformSum(a + b, p, m) == PlatformSum(a, p, m) + PlatformSum(b, p, m)
  {
    if a == [] {
      assert a + b == b;
    } else {
      assert (a + b)[1..] == a[1..] + b;
      PlatformSumAppend(a[1..], b, p, m);
    }
  }

  /** The sum of a platform's wide column over all records. */
  function ColumnTotal(records: seq<WideRecord>, p: Platform, m: Metric): nat
  {
    if records == [] then 0 else Column(records[0], p, m) + ColumnTotal(records[1..], p, m)
  }

  /** The sum of a platform's wide column over the records dated in
      [start, end]. */
  function WindowTotal(records: seq<WideRecord>, p: Platform, m: Metric, start: int, end: int): nat
  {
    if records == [] then 0
    else (if start <= records[0].date <= end then Column(records[0], p, m) else 0)
         + WindowTotal(records[1..], p, m, start, end)
  }

  lemma {:induction false} BlockSum(records: seq<WideRecord>, q: Platform, p: Platform, m: Metric)
    ensures PlatformSum(Block(records, q), p, m) == if p == q then ColumnTotal(records, p, m) else 0
  {
    if records != [] {
      var rows := Block(records, q);
      assert rows[1..] == Block(records[1..], q);
      BlockSum(records[1..], q, p, m);
    }
  }

  /** One step of the filtered sum: the head row counts when it passes the
      mask and belongs to the platform. */
  lemma FilteredSumStep(rows: seq<Observation>, p: Platform, m: Metric,
                        start: int, end: int, selected: set<Platform>)
    requires rows != []
    ensures PlatformSum(Filter(rows, start, end, selected), p, m) ==
      (if Keep(rows[0], start, end, selected) && rows[0].platform == p then Count(rows[0], m) else 0)
      + PlatformSum(Filter(rows[1..], start, end, selected), p, m)
  {
    var rest := Filter(rows[1..], start, end, selected);
    if Keep(rows[0], start, end, selected) {
      assert Filter(rows, start, end, selected) == [rows[0]] + rest;
      assert ([rows[0]] + rest)[1..] == rest;
    } else {
      assert Filter(rows, start, end, selected) == rest;
    }
  }

  lemma {:induction false} FilteredBlockSum(records: seq<WideRecord>, q: Platform, p: Platform, m: Metric,
                                            start: int, end: int, selected: set<Platform>)
    ensures PlatformSum(Filter(Block(records, q), start, end, selected), p, m) ==
      if p == q && p in selected then WindowTotal(records, p, m, start, end) else 0
  {
    if records != [] {
      var rows := Block(records, q);
      assert rows[1..] == Block(records[1..], q);
      FilteredSumStep(rows, p, m, start, end, selected);
      FilteredBlockSum(records[1..], q, p, m, start, end, selected);
    }
  }

  /** Sums survive the reshape: over the whole long table (the platform
      summary), each platform's total is the sum of its wide column. */
  lemma ReshapeSum(records: seq<WideRecord>, p: Platform, m: Metric)
    ensures PlatformSum(Reshape(records), p, m) == ColumnTotal(records, p, m)
  {
    PlatformSumAppend(Block(records, Facebook), Block(records, AdWords), p, m);
    BlockSum(records, Facebook, p, m);
    BlockSum(records, AdWords, p, m);
  }

  /** Sums survive reshape and filter: after filtering to [start, end] and
      the selected platforms, a platform's displayed total is the sum of its
      wide column over the records dated in the window, and 0 when it is not
      selected. */
  lemma FilteredSum(records: seq<WideRecord>, p: Platform, m: Metric,
                    start: int, end: int, selected: set<Platform>)
    ensures var rows := Filter(Reshape(records), start, end, selected);
      DisplayedTotal(rows, p, m) ==
      if p in selected then WindowTotal(records, p, m, start, end) else 0
  {
    var fb, aw := Block(records, Facebook), Block(records, AdWords);
    var kept := Filter(Reshape(records), start, end, selected);
    var keptFb, keptAw := Filter(fb, start, end, selected), Filter(aw, start, end, selected);
    assert Reshape(records) == fb + aw;
    FilterAppend(fb, aw, start, end, selected);
    assert kept == keptFb + keptAw;
    PlatformSumAppend(keptFb, keptAw, p, m);
    FilteredBlockSum(records, Facebook, p, m, start, end, selected);
    FilteredBlockSum(records, AdWords, p, m, start, end, selected);
  }

  /** The platform summary of a non-empty campaign has an entry for both
      platforms, each the total of that platform's wide column. */
  lemma SummaryTotals(records: seq<WideRecord>, m: Metric)
    requires records != []
    ensures var g := GroupSum(Reshape(records), m);
      g.Keys == {Facebook, AdWords} &&
      g[Facebook] == ColumnTotal(records, Facebook, m) &&
      g[AdWords] == ColumnTotal(records, AdWords, m)
  {
    var rows := Reshape(records);
    assert rows[0].platform == Facebook;
    assert rows[|records|].platform == AdWords;
    assert Present(rows, Facebook) && Present(rows, AdWords);
    ReshapeSum(records, Facebook, m);
    ReshapeSum(records, AdWords, m);
  }
}
