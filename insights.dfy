/** The "Key Insights" block: the filtered per-platform totals with their 0
    default, formatted and highlighted, and the overall best platform. */
module Insights {
  import opened Campaign
  import opened Reshaping
  import opened Filtering
  import opened Aggregation
  import opened Formatting
  import opened Highlighting

  /** `format_num(total.get(platform, 0))`: a string without markdown
      emphasis that reads back, in the unit chosen for the platform's sum, to
      within half a tenth of that sum (0 for a platform without rows). */
  function FormattedTotal(rows: seq<Observation>, p: Platform, m: Metric): (s: string)
    ensures Unadorned(s)
    ensures var total, r := PlatformSum(rows, p, m), ReadBack(s);
      r.Some? && r.value.scale == Scale(total) &&
      -(Scale(total) as int) <= 2 * (r.value.tenths * Scale(total) - 10 * total) <= Scale(total)
  {
    FormatNumReadBack(DisplayedTotal(rows, p, m));
    FormatNum(DisplayedTotal(rows, p, m))
  }

  /** The mark on the views, clicks or conversions line, as written: the two
      formatted totals are compared as strings, so Facebook is marked iff its
      string sorts after AdWords', and neither iff the strings are equal. */
  function CountMark(rows: seq<Observation>, m: Metric): (mark: Mark)
    ensures var fb, aw := FormattedTotal(rows, Facebook, m), FormattedTotal(rows, AdWords, m);
      (mark == MarkFacebook <==> StrLess(aw, fb)) &&
      (mark == MarkAdWords <==> StrLess(fb, aw)) &&
      (mark == Unmarked <==> fb == aw)
  {
    var fb, aw := FormattedTotal(rows, Facebook, m), FormattedTotal(rows, AdWords, m);
    HigherBetterStrings(fb, aw);
    Judge(fb, aw, "higher_better", StrLess)
  }

  /** The views, clicks or conversions line of the insights block: the mark
      it shows can be read back from it, and without the emphasis it shows
      the two formatted totals. */
  function CountLine(rows: seq<Observation>, m: Metric): (line: string)
    ensures ReadMark(line) == CountMark(rows, m)
    ensures PlainText(line) ==
      "FB: " + FormattedTotal(rows, Facebook, m) + " | AW: " + FormattedTotal(rows, AdWords, m)
  {
    var fb, aw := FormattedTotal(rows, Facebook, m), FormattedTotal(rows, AdWords, m);
    HighlightMetric(fb, aw, "higher_better")
  }

  /** Equal totals give equal strings and so an unmarked line. */
  lemma CountMarkTie(rows: seq<Observation>, m: Metric)
    requires DisplayedTotal(rows, Facebook, m) == DisplayedTotal(rows, AdWords, m)
    ensures CountMark(rows, m) == Unmarked
  {
  }

  /** The string comparison misorders totals: 999 Facebook views against
      1000 AdWords views are shown as "999" against "1.0K", and since '9'
      sorts after '1' the line marks Facebook. */
  lemma CountMarkMisorders()
    ensures var rows := [
        Observation(1, 999, 0, 0, 0.0, 0.0, 0.0, 0.0, Facebook),
        Observation(1, 1_000, 0, 0, 0.0, 0.0, 0.0, 0.0, AdWords)];
      DisplayedTotal(rows, Facebook, Views) < DisplayedTotal(rows, AdWords, Views) &&
      CountMark(rows, Views) == MarkFacebook
  {
    var rows := [
      Observation(1, 999, 0, 0, 0.0, 0.0, 0.0, 0.0, Facebook),
      Observation(1, 1_000, 0, 0, 0.0, 0.0, 0.0, 0.0, AdWords)];
    assert rows[1..][1..] == [];
    assert PlatformSum(rows, Facebook, Views) == 999;
    assert PlatformSum(rows, AdWords, Views) == 1_000;
    FormatNumExamples();
    assert StrLess("1.0K", "999");
  }

  /** The intended mark: the totals compared as numbers. */
  function NumericCountMark(rows: seq<Observation>, m: Metric): Mark
  {
    Judge(DisplayedTotal(rows, Facebook, m), DisplayedTotal(rows, AdWords, m), "higher_better",
          (a: nat, b: nat) => a < b)
  }

  /** The line with the intended mark; it shows the same two formatted
      totals. */
  function NumericCountLine(rows: seq<Observation>, m: Metric): (line: string)
    ensures ReadMark(line) == NumericCountMark(rows, m)
    ensures PlainText(line) ==
      "FB: " + FormattedTotal(rows, Facebook, m) + " | AW: " + FormattedTotal(rows, AdWords, m)
  {
    var fb, aw := FormattedTotal(rows, Facebook, m), FormattedTotal(rows, AdWords, m);
    ReadMarkRender(fb, aw, NumericCountMark(rows, m));
    PlainTextRender(fb, aw, NumericCountMark(rows, m));
    Render(fb, aw, NumericCountMark(rows, m))
  }

  /** With the numeric comparison, the line marks the platform with the larger
      total of the wide column over the records in the date window, and
      neither on equal totals. */
  lemma NumericCountMarkCorrect(records: seq<WideRecord>, m: Metric, start: int, end: int)
    ensures var rows := Filter(Reshape(records), start, end, {Facebook, AdWords});
      var fb, aw := WindowTotal(records, Facebook, m, start, end), WindowTotal(records, AdWords, m, start, end);
      (NumericCountMark(rows, m) == MarkFacebook <==> fb > aw) &&
      (NumericCountMark(rows, m) == MarkAdWords <==> fb < aw) &&
      (NumericCountMark(rows, m) == Unmarked <==> fb == aw)
  {
    FilteredSum(records, Facebook, m, start, end, {Facebook, AdWords});
    FilteredSum(records, AdWords, m, start, end, {Facebook, AdWords});
  }

  /** The `best_platform` expression. The best platform has the larger
      average conversion rate (0 for a platform with no rows); Facebook needs
      a strictly larger one, so an exact tie, or two missing platforms, goes
      to AdWords. */
  function BestPlatform(avgConversionRate: map<Platform, real>): (best: Platform)
    ensures GetOr(avgConversionRate, best, 0.0) >= GetOr(avgConversionRate, Other(best), 0.0)
    ensures best == Facebook <==>
      GetOr(avgConversionRate, Facebook, 0.0) > GetOr(avgConversionRate, AdWords, 0.0)
    ensures GetOr(avgConversionRate, Facebook, 0.0) == GetOr(avgConversionRate, AdWords, 0.0) ==>
      best == AdWords
  {
    if GetOr(avgConversionRate, Facebook, 0.0) > GetOr(avgConversionRate, AdWords, 0.0)
    then Facebook else AdWords
  }

  /** The best platform agrees with the higher-better mark on the conversion
      rates whenever that mark names a platform; on a tie the mark names
      neither while the best platform is AdWords. */
  lemma BestPlatformAgreesWithMark(avgConversionRate: map<Platform, real>)
    ensures var fb, aw := GetOr(avgConversionRate, Facebook, 0.0), GetOr(avgConversionRate, AdWords, 0.0);
      var mark := Judge(fb, aw, "higher_better", (a: real, b: real) => a < b);
      (mark == MarkFacebook ==> BestPlatform(avgConversionRate) == Facebook) &&
      (mark == MarkAdWords ==> BestPlatform(avgConversionRate) == AdWords) &&
      (mark == Unmarked <==> fb == aw)
  {
  }
}
