/** Wide-to-long reshape: every campaign record becomes one Facebook row and
    one AdWords row, and the two blocks are concatenated, Facebook first. */
module Reshaping {
  import opened Campaign

  /** The long-format row of platform `p` for record `r`: the eight columns
      selected for that platform, renamed by position to the shared schema,
      plus the platform tag. */
  function ToObservation(r: WideRecord, p: Platform): (o: Observation)
    ensures o.date == r.date && o.platform == p
    ensures forall m: Metric :: Count(o, m) == Column(r, p, m)
    ensures p == Facebook ==>
      o.costPerAd == r.facebookCostPerAd && o.ctr == r.facebookCtr &&
      o.conversionRate == r.facebookConversionRate && o.costPerClick == r.facebookCostPerClick
    ensures p == AdWords ==>
      o.costPerAd == r.adwordCostPerAd && o.ctr == r.adwordCtr &&
      o.conversionRate == r.adwordConversionRate && o.costPerClick == r.adwordCostPerClick
  {
    match p
    case Facebook =>
      Observation(r.date, r.facebookAdViews, r.facebookAdClicks, r.facebookAdConversions,
                  r.facebookCostPerAd, r.facebookCtr, r.facebookConversionRate,
                  r.facebookCostPerClick, Facebook)
    case AdWords =>
      Observation(r.date, r.adwordAdViews, r.adwordAdClicks, r.adwordAdConversions,
                  r.adwordCostPerAd, r.adwordCtr, r.adwordConversionRate,
                  r.adwordCostPerClick, AdWords)
  }

  /** The per-platform frame (`facebook` or `adwords`): one row per record,
      in record order. */
  function Block(records: seq<WideRecord>, p: Platform): (rows: seq<Observation>)
    ensures |rows| == |records|
    ensures forall i :: 0 <= i < |records| ==> rows[i] == ToObservation(records[i], p)
  {
    if records == [] then []
    else [ToObservation(records[0], p)] + Block(records[1..], p)
  }

  /** `pd.concat([facebook, adwords], ignore_index=True)`. */
  function Reshape(records: seq<WideRecord>): (rows: seq<Observation>)
    ensures |rows| == 2 * |records|
    ensures forall i :: 0 <= i < |records| ==>
      rows[i] == ToObservation(records[i], Facebook) &&
      rows[|records| + i] == ToObservation(records[i], AdWords)
  {
    Block(records, Facebook) + Block(records, AdWords)
  }

  /** The cardinality and tagging of the reshaped table: rows 0..N-1 are
      Facebook rows, rows N..2N-1 are AdWords rows, each carrying the date of
      its record. */
  lemma ReshapeTagging(records: seq<WideRecord>)
    ensures var rows := Reshape(records);
      |rows| == 2 * |records| &&
      (forall i :: 0 <= i < |rows| ==>
        (rows[i].platform == Facebook <==> i < |records|) &&
        rows[i].date == records[if i < |records| then i else i - |records|].date)
  {
    var rows := Reshape(records);
    forall i | 0 <= i < |rows|
      ensures (rows[i].platform == Facebook <==> i < |records|)
      ensures rows[i].date == records[if i < |records| then i else i - |records|].date
    {
      if i >= |records| {
        assert rows[|records| + (i - |records|)] == ToObservation(records[i - |records|], AdWords);
      }
    }
  }

  /** Rebuild a wide record from its Facebook and AdWords rows. */
  function Merge(f: Observation, a: Observation): WideRecord
  {
    WideRecord(f.date, f.views, f.clicks, f.conversions,
               f.costPerAd, f.ctr, f.conversionRate, f.costPerClick,
               a.views, a.clicks, a.conversions,
               a.costPerAd, a.ctr, a.conversionRate, a.costPerClick)
  }

  /** Pair the i-th row of a Facebook block with the i-th row of an AdWords
      block; fails unless tags and dates match. */
  function Pair(fb: seq<Observation>, aw: seq<Observation>): (r: Option<seq<WideRecord>>)
    requires |fb| == |aw|
    ensures r.Some? ==> |r.value| == |fb|
    decreases |fb|
  {
    if fb == [] then Some([])
    else if fb[0].platform != Facebook || aw[0].platform != AdWords || fb[0].date != aw[0].date then None
    else
      match Pair(fb[1..], aw[1..])
      case None => None
      case Some(rest) => Some([Merge(fb[0], aw[0])] + rest)
  }

  /** The inverse of the reshape: split the long table in two halves and pair
      them up again. */
  function Widen(rows: seq<Observation>): (r: Option<seq<WideRecord>>)
    ensures r.Some? ==> 2 * |r.value| == |rows|
  {
    if |rows| % 2 != 0 then None
    else Pair(rows[..|rows| / 2], rows[|rows| / 2..])
  }

  lemma {:induction false} PairBlocks(records: seq<WideRecord>)
    ensures Pair(Block(records, Facebook), Block(records, AdWords)) == Some(records)
  {
    if records != [] {
      var fb, aw := Block(records, Facebook), Block(records, AdWords);
      assert fb[1..] == Block(records[1..], Facebook);
      assert aw[1..] == Block(records[1..], AdWords);
      PairBlocks(records[1..]);
      assert Merge(fb[0], aw[0]) == records[0];
      assert [records[0]] + records[1..] == records;
    }
  }

  /** Nothing is lost by the reshape: the wide table is recovered from it. */
  lemma WidenReshape(records: seq<WideRecord>)
    ensures Widen(Reshape(records)) == Some(records)
  {
    var rows := Reshape(records);
    var n := |records|;
    assert rows[..n] == Block(records, Facebook);
    assert rows[n..] == Block(records, AdWords);
    PairBlocks(records);
  }

  lemma {:induction false} PairSound(fb: seq<Observation>, aw: seq<Observation>, records: seq<WideRecord>)
    requires |fb| == |aw|
    requires Pair(fb, aw) == Some(records)
    ensures Block(records, Facebook) == fb && Block(records, AdWords) == aw
  {
    if fb != [] {
      var rest := Pair(fb[1..], aw[1..]).value;
      PairSound(fb[1..], aw[1..], rest);
      assert records == [Merge(fb[0], aw[0])] + rest;
      assert ToObservation(Merge(fb[0], aw[0]), Facebook) == fb[0];
      assert ToObservation(Merge(fb[0], aw[0]), AdWords) == aw[0];
      assert records[1..] == rest;
      assert fb == [fb[0]] + fb[1..];
      assert aw == [aw[0]] + aw[1..];
    }
  }

  /** Conversely, every long table that widens is exactly the reshape of the
      records it widens to. */
  lemma ReshapeWiden(rows: seq<Observation>, records: seq<WideRecord>)
    requires Widen(rows) == Some(records)
    ensures Reshape(records) == rows
  {
    var h := |rows| / 2;
    assert |rows| % 2 == 0 && Pair(rows[..h], rows[h..]) == Some(records);
    PairSound(rows[..h], rows[h..], records);
    assert Reshape(records) == Block(records, Facebook) + Block(records, AdWords);
    assert rows == rows[..h] + rows[h..];
  }
}
