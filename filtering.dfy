/** The date-range and platform filter over the long table, and the default
    values of the filter widgets. */
module Filtering {
  import opened Campaign
  import opened Reshaping

  /** The boolean mask: date within [start, end], both ends inclusive, and
      platform among the selected ones. */
  predicate Keep(o: Observation, start: int, end: int, selected: set<Platform>)
  {
    start <= o.date && o.date <= end && o.platform in selected
  }

  /** `df_long[mask]`: the rows the mask keeps, in their original order. */
  function Filter(rows: seq<Observation>, start: int, end: int, selected: set<Platform>)
    : (kept: seq<Observation>)
    ensures |kept| <= |rows|
    ensures forall o :: o in kept <==> o in rows && Keep(o, start, end, selected)
  {
    if rows == [] then []
    else (if Keep(rows[0], start, end, selected) then [rows[0]] else [])
         + Filter(rows[1..], start, end, selected)
  }

  /** `a` is `b` with some rows deleted, the rest kept in their order. */
  predicate IsSubsequence(a: seq<Observation>, b: seq<Observation>)
    decreases |b|
  {
    if b == [] then a == []
    else (a != [] && a[0] == b[0] && IsSubsequence(a[1..], b[1..])) || IsSubsequence(a, b[1..])
  }

  /** The filtered table is an order-preserving subsequence of the input. */
  lemma {:induction false} FilterIsSubsequence(rows: seq<Observation>, start: int, end: int,
                                                selected: set<Platform>)
    ensures IsSubsequence(Filter(rows, start, end, selected), rows)
  {
    if rows != [] {
      var rest := Filter(rows[1..], start, end, selected);
      FilterIsSubsequence(rows[1..], start, end, selected);
      if Keep(rows[0], start, end, selected) {
        assert Filter(rows, start, end, selected) == [rows[0]] + rest;
        assert ([rows[0]] + rest)[1..] == rest;
      } else {
        assert Filter(rows, start, end, selected) == rest;
      }
    }
  }

  /** Row multiplicities: every row the mask keeps is there as often as in
      the input, every other row not at all. */
  lemma {:induction false} FilterMultiset(rows: seq<Observation>, start: int, end: int,
                                          selected: set<Platform>)
    ensures var kept := Filter(rows, start, end, selected);
      forall o :: multiset(kept)[o] == (if Keep(o, start, end, selected) then multiset(rows)[o] else 0)
  {
    if rows != [] {
      FilterMultiset(rows[1..], start, end, selected);
      assert rows == [rows[0]] + rows[1..];
      assert multiset(rows) == multiset{rows[0]} + multiset(rows[1..]);
    }
  }

  lemma {:induction false} FilterAppend(a: seq<Observation>, b: seq<Observation>, start: int, end: int,
                                        selected: set<Platform>)
    ensures Filter(a + b, start, end, selected) ==
      Filter(a, start, end, selected) + Filter(b, start, end, selected)
  {
    if a != [] {
      assert (a + b)[1..] == a[1..] + b;
      FilterAppend(a[1..], b, start, end, selected);
    } else {
      assert a + b == b;
    }
  }

  /** The mask never removes a row it kept before: filtering twice with the
      same inputs is filtering once. */
  lemma {:induction false} FilterIdempotent(rows: seq<Observation>, start: int, end: int,
                                            selected: set<Platform>)
    ensures Filter(Filter(rows, start, end, selected), start, end, selected) ==
      Filter(rows, start, end, selected)
  {
    if rows != [] {
      FilterIdempotent(rows[1..], start, end, selected);
      var head := if Keep(rows[0], start, end, selected) then [rows[0]] else [];
      FilterAppend(head, Filter(rows[1..], start, end, selected), start, end, selected);
    }
  }

  /** When every row lies in the window and every platform is selected, the
      filter keeps the whole table. */
  lemma {:induction false} FilterKeepsAll(rows: seq<Observation>, start: int, end: int,
                                          selected: set<Platform>)
    requires forall i :: 0 <= i < |rows| ==> Keep(rows[i], start, end, selected)
    ensures Filter(rows, start, end, selected) == rows
  {
    if rows != [] {
      assert Keep(rows[0], start, end, selected);
      FilterKeepsAll(rows[1..], start, end, selected);
      assert [rows[0]] + rows[1..] == rows;
    }
  }

  /** `df_long['date'].min()`, or nothing on an empty table. */
  function MinDate(rows: seq<Observation>): (d: Option<int>)
    ensures d.None? <==> rows == []
    ensures d.Some? ==> (exists i :: 0 <= i < |rows| && rows[i].date == d.value) &&
                        forall i :: 0 <= i < |rows| ==> d.value <= rows[i].date
  {
    if rows == [] then None
    else match MinDate(rows[1..])
      case None => Some(rows[0].date)
      case Some(m) => Some(if rows[0].date <= m then rows[0].date else m)
  }

  /** `df_long['date'].max()`, or nothing on an empty table. */
  function MaxDate(rows: seq<Observation>): (d: Option<int>)
    ensures d.None? <==> rows == []
    ensures d.Some? ==> (exists i :: 0 <= i < |rows| && rows[i].date == d.value) &&
                        forall i :: 0 <= i < |rows| ==> rows[i].date <= d.value
  {
    if rows == [] then None
    else match MaxDate(rows[1..])
      case None => Some(rows[0].date)
      case Some(m) => Some(if rows[0].date >= m then rows[0].date else m)
  }

  predicate Distinct(ps: seq<Platform>)
  {
    forall i, j :: 0 <= i < j < |ps| ==> ps[i] != ps[j]
  }

  /** The platforms of `rows` not yet in `seen`, appended to `seen` in order
      of first appearance. */
  function Unique(rows: seq<Observation>, seen: seq<Platform>): (ps: seq<Platform>)
    ensures seen <= ps
  {
    if rows == [] then seen
    else Unique(rows[1..], if rows[0].platform in seen then seen else seen + [rows[0].platform])
  }

  /** What `Unique` collects: the platforms seen or present, none twice. */
  lemma {:induction false} UniqueMembers(rows: seq<Observation>, seen: seq<Platform>)
    ensures forall p :: p in Unique(rows, seen) <==>
      p in seen || exists i :: 0 <= i < |rows| && rows[i].platform == p
    ensures Distinct(seen) ==> Distinct(Unique(rows, seen))
  {
    if rows != [] {
      var next := if rows[0].platform in seen then seen else seen + [rows[0].platform];
      UniqueMembers(rows[1..], next);
      assert forall i :: 0 <= i < |rows[1..]| ==> rows[1..][i] == rows[i + 1];
      forall p | exists i :: 0 <= i < |rows| && rows[i].platform == p
        ensures p in Unique(rows, seen)
      {
        var i :| 0 <= i < |rows| && rows[i].platform == p;
        if i > 0 { assert rows[1..][i - 1].platform == p; }
      }
    }
  }

  /** `df_long['platform'].unique()`: the platforms present, each once, in
      order of first appearance. */
  function PlatformOptions(rows: seq<Observation>): (ps: seq<Platform>)
    ensures forall p :: p in ps <==> exists i :: 0 <= i < |rows| && rows[i].platform == p
    ensures Distinct(ps)
  {
    UniqueMembers(rows, []);
    Unique(rows, [])
  }

  lemma {:induction false} UniqueAppend(a: seq<Observation>, b: seq<Observation>, seen: seq<Platform>)
    ensures Unique(a + b, seen) == Unique(b, Unique(a, seen))
  {
    if a == [] {
      assert a + b == b;
    } else {
      assert (a + b)[1..] == a[1..] + b;
      UniqueAppend(a[1..], b, if a[0].platform in seen then seen else seen + [a[0].platform]);
    }
  }

  lemma {:induction false} UniqueCovered(rows: seq<Observation>, seen: seq<Platform>)
    requires forall i :: 0 <= i < |rows| ==> rows[i].platform in seen
    ensures Unique(rows, seen) == seen
  {
    if rows != [] {
      assert rows[0].platform in seen;
      UniqueCovered(rows[1..], seen);
    }
  }

  /** With the widgets at their defaults (start at the earliest date, end at
      the latest, every platform present selected), the filtered table is the
      whole long table. */
  lemma DefaultFilterKeepsAll(rows: seq<Observation>)
    requires rows != []
    ensures Filter(rows, MinDate(rows).value, MaxDate(rows).value,
                   set p | p in PlatformOptions(rows)) == rows
  {
    var selected := set p | p in PlatformOptions(rows);
    forall i | 0 <= i < |rows|
      ensures Keep(rows[i], MinDate(rows).value, MaxDate(rows).value, selected)
    {
      assert rows[i].platform in PlatformOptions(rows);
    }
    FilterKeepsAll(rows, MinDate(rows).value, MaxDate(rows).value, selected);
  }

  /** A non-empty block of platform `p` adds exactly `p` to what was seen. */
  lemma UniqueBlock(records: seq<WideRecord>, seen: seq<Platform>, p: Platform)
    requires records != [] && p !in seen
    ensures Unique(Block(records, p), seen) == seen + [p]
  {
    var rows := Block(records, p);
    assert rows[0].platform == p;
    UniqueCovered(rows[1..], seen + [p]);
  }

  lemma UniqueBlocks(records: seq<WideRecord>)
    requires records != []
    ensures Unique(Block(records, Facebook) + Block(records, AdWords), []) == [Facebook, AdWords]
  {
    var fb, aw := Block(records, Facebook), Block(records, AdWords);
    UniqueAppend(fb, aw, []);
    UniqueBlock(records, [], Facebook);
    assert [] + [Facebook] == [Facebook];
    UniqueBlock(records, [Facebook], AdWords);
    assert [Facebook] + [AdWords] == [Facebook, AdWords];
  }

  /** For a non-empty campaign, the platform options are Facebook then AdWords. */
  lemma ReshapePlatformOptions(records: seq<WideRecord>)
    requires records != []
    ensures PlatformOptions(Reshape(records)) == [Facebook, AdWords]
  {
    assert Reshape(records) == Block(records, Facebook) + Block(records, AdWords);
    UniqueBlocks(records);
  }
}
