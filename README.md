# Facebook vs AdWords A/B dashboard: the data logic, in Dafny

The dashboard loads one CSV row per campaign date. Each row has seven
Facebook columns and seven AdWords columns. The dashboard reshapes the rows
into a long table with one row per date and platform, and sums views, clicks
and conversions per platform. It filters the long table by a date window and
a platform selection. It then shows the filtered totals as abbreviated
numbers ("1.0K", "1.5M"), marks the better platform on each metric line, and
names the platform with the higher average conversion rate.

This project models that logic as pure functions over sequences of records,
with the Streamlit and pandas calls taken away.

- `campaign.dfy` (module `Campaign`): the wide record, the long-format
  observation, the platforms and the integer metrics. Dates are integers,
  counts are `nat`. The four floating-point columns are carried as `real`
  and never computed with.
- `reshaping.dfy` (`Reshaping`): the wide-to-long reshape (`Reshape`), which
  puts the Facebook block first and the AdWords block second. It comes with
  its inverse `Widen` and round-trip lemmas in both directions.
- `filtering.dfy` (`Filtering`): the date-and-platform mask (`Filter`) and
  its characterisation: order-preserving subsequence, membership,
  multiplicities and idempotence. It also models the widget defaults (min
  date, max date, `unique()` platforms), under which the filter keeps
  everything.
- `aggregation.dfy` (`Aggregation`): the groupby-sum as a fold (`GroupSum`)
  and the `.get(platform, 0)` default. Sums survive the reshape and the
  filter: each filtered total equals the sum of the wide column over the
  records in the window.
- `formatting.dfy` (`Formatting`): `format_num`, with `str(n)` and its
  parser, rounding to tenths, and a read-back lemma. The lemma says which
  suffix is chosen and how close the displayed number is to `n`.
- `highlighting.dfy` (`Highlighting`): Python string order, the
  `highlight_metric` decision table (`Judge`), and the markdown it renders
  (`Render`, with `ReadMark` reading the mark back).
- `insights.dfy` (`Insights`): the "Key Insights" lines built from the
  filtered totals, the `best_platform` expression, and the finding below.

Three details of the code that the model keeps as written:

- `best_platform` (app.py:194) is a strict `>`, so an exact tie goes to
  **AdWords**.
- `highlight_metric` in lower-better mode (app.py:161-165) marks AdWords on a
  tie. It has no no-winner outcome in that mode.
- At the call sites (app.py:184-191) the arguments of `highlight_metric` are
  already-formatted strings, so the comparison is Python's string order.

## Model

| member | source | states |
|---|---|---|
| Campaign.PlatformName | app.py:29-41 | Facebook rows are tagged exactly "Facebook" and AdWords rows exactly "AdWords" |
| Campaign.GetOr | app.py:169-174 | `dict.get(key, default)` is the stored value for a present key and the default for a missing one |
| Reshaping.ToObservation | app.py:24-42 | the long row for a platform carries the record's date, that platform's tag, and the platform's seven columns renamed by position |
| Reshaping.Block | app.py:24-42 | a per-platform frame has one row per record, and row i is built from record i |
| Reshaping.Reshape | app.py:24-45 | for N records the long table has 2N rows; row i is record i's Facebook row and row N+i is its AdWords row |
| Reshaping.ReshapeTagging | app.py:29-45 | rows 0..N-1 are tagged Facebook and rows N..2N-1 AdWords, each with its record's date |
| Reshaping.Pair | app.py:45 | pairing a Facebook block with an AdWords block, when it succeeds, yields one record per pair |
| Reshaping.Widen | app.py:45 | undoing the concatenation yields half as many records as long rows |
| Reshaping.WidenReshape | app.py:24-45 | the wide records are recovered from the long table: widening the reshape gives the input back |
| Reshaping.ReshapeWiden | app.py:24-45 | every long table that widens is exactly the reshape of the records it widens to |
| Filtering.Filter | app.py:114-118 | a row is in the result iff it is in the input, its date is in [start, end] (both inclusive) and its platform is selected |
| Filtering.FilterIsSubsequence | app.py:114-118 | the filtered table is an order-preserving subsequence of the long table |
| Filtering.FilterMultiset | app.py:114-118 | each row that passes the mask occurs as often as in the input; each other row occurs not at all |
| Filtering.FilterAppend | app.py:114-118 | the mask works row by row, so filtering a concatenation concatenates the filtered parts |
| Filtering.FilterIdempotent | app.py:114-118 | filtering twice with the same window and selection is filtering once |
| Filtering.FilterKeepsAll | app.py:114-118 | when every row passes the mask, the whole table is kept |
| Filtering.MinDate | app.py:109 | the default start date is a date of the table and is no later than any other; there is none for an empty table |
| Filtering.MaxDate | app.py:110 | the default end date is a date of the table and is no earlier than any other; there is none for an empty table |
| Filtering.Unique | app.py:111 | `unique()` keeps first-appearance order: the platforms already collected stay a prefix of the result |
| Filtering.UniqueMembers | app.py:111-112 | `unique()` collects exactly the platforms present, none twice |
| Filtering.PlatformOptions | app.py:111-112 | the platform options are exactly the platforms present, without repeats |
| Filtering.DefaultFilterKeepsAll | app.py:109-118 | with the widgets at their defaults, the filter keeps the whole long table |
| Filtering.ReshapePlatformOptions | app.py:111-112 | for a non-empty campaign the options are Facebook then AdWords |
| Aggregation.GroupSum | app.py:134-136 | the groupby-sum has a key for exactly the platforms present, each mapped to that platform's sum of the metric |
| Aggregation.PlatformSumAbsent | app.py:169-174 | a platform without rows sums to 0 |
| Aggregation.DisplayedTotal | app.py:169-174 | `.get(platform, 0)` on the groupby-sum is the platform's sum, and is 0 for a platform with no rows |
| Aggregation.ReshapeSum | app.py:56-59 | over the whole long table each platform's sum equals the total of its wide column |
| Aggregation.SummaryTotals | app.py:56-59 | the platform summary of a non-empty campaign has entries for both platforms, each the total of its wide column |
| Aggregation.FilteredSum | app.py:114-136 | after reshape and filter, a platform's displayed total is its wide column summed over the records dated in the window, and 0 if it is not selected |
| Formatting.NatToString | app.py:147 | `str(n)` is a non-empty digit string with no leading zero (except for 0), of at most three digits below 1000 |
| Formatting.ParseNatToString | app.py:147 | reading the digits of `str(n)` gives n back |
| Formatting.NatToStringParse | app.py:147 | every canonical digit string is `str` of its value |
| Formatting.Tenths | app.py:144-146 | the rounded tenths differ from 10n/d by at most half, and an exact half goes to the even neighbour |
| Formatting.TenthsExact | app.py:144-146 | when d divides 10n the rounding is exact |
| Formatting.OneDecimal | app.py:144-146 | `:.1f` writes digits, a point and one digit |
| Formatting.FormatNum | app.py:142-147 | the formatted count is non-empty and contains neither '*' nor the check mark, so it cannot be mistaken for markdown emphasis |
| Formatting.ReadBackOneDecimal | app.py:144-146 | a one-decimal number with a K or M suffix reads back as its tenths in thousands or millions |
| Formatting.FormatNumReadBack | app.py:142-147 | the suffix is M iff n >= 1000000 and K iff 1000 <= n < 1000000; below 1000 the result is exactly `str(n)`; read back, it is within half a tenth of a unit of n |
| Formatting.FormatNumExact | app.py:142-147 | on multiples of 100 (K range) or 100000 (M range) the displayed value is exact |
| Formatting.FormatNumExamples | app.py:142-147 | 999 gives "999", 1000 gives "1.0K" and 1500000 gives "1.5M" |
| Highlighting.StrLessIrreflexive | app.py:157-162 | no string sorts before itself |
| Highlighting.StrLessTrichotomy | app.py:157-162 | of two strings exactly one sorts first, or they are equal |
| Highlighting.StrLessTransitive | app.py:157-162 | string order is transitive |
| Highlighting.Judge | app.py:155-166 | lower-better always marks a platform; a mode other than the two known ones marks neither |
| Highlighting.Render | app.py:158-166 | the line starts with the bold marker exactly when Facebook is marked |
| Highlighting.HighlightMetric | app.py:155-166 | the line starts with the bold marker iff Facebook is marked; the mark can be read back from the line; with the emphasis ignored the line is the plain FB/AW line, so both values are shown in order |
| Highlighting.HigherBetterStrings | app.py:156-160 | higher-better marks FB iff fb > aw, AW iff fb < aw, and neither iff they are equal (falling through to line 166) |
| Highlighting.LowerBetterStrings | app.py:161-165 | lower-better marks FB iff fb < aw, and AW otherwise, a tie included |
| Highlighting.HigherBetterSymmetric | app.py:156-160 | swapping the two values mirrors the higher-better mark |
| Highlighting.LowerBetterSymmetricUnlessTie | app.py:161-165 | swapping the values mirrors the lower-better mark exactly when they differ |
| Highlighting.ReadMarkRender | app.py:158-166 | the three rendered forms can be told apart, so the mark is recoverable from the line |
| Highlighting.PlainTextAppend | app.py:158-166 | ignoring emphasis works piece by piece, unless a cut falls between a space and the check mark |
| Highlighting.PlainTextRender | app.py:158-166 | with the bold markers and the check mark ignored, all three forms show both values after their labels |
| Insights.FormattedTotal | app.py:169-174 | `format_num(total.get(platform, 0))` reads back, in the unit chosen for the platform's sum, to within half a tenth of that sum |
| Insights.CountMark | app.py:184-186 | as written, Facebook is marked iff its formatted total sorts after AdWords' as a string, AdWords iff before, neither iff the strings are equal |
| Insights.CountLine | app.py:184-186 | the views, clicks or conversions line shows the mark computed on the formatted totals, and both formatted totals |
| Insights.CountMarkTie | app.py:184-186 | equal totals give an unmarked line |
| Insights.CountMarkMisorders | app.py:184-186 | 999 Facebook views against 1000 AdWords views mark Facebook |
| Insights.NumericCountLine | app.py:184-186 | the corrected line shows the mark computed on the numeric totals, and the same two formatted totals |
| Insights.NumericCountMarkCorrect | app.py:184-186 | with numeric comparison the line marks the platform with the larger windowed column total, and neither on equal totals |
| Insights.BestPlatform | app.py:194 | the best platform has the larger average conversion rate (0 if missing); Facebook iff strictly greater; a tie goes to AdWords |
| Insights.BestPlatformAgreesWithMark | app.py:194 | the best platform agrees with the higher-better mark on the rates when that mark names a platform; on a tie it is AdWords |

## Left out

- Streamlit page setup, titles, dataframe previews, columns, markdown and
  info boxes (app.py:7-17, 48-49, 68, 120-121, 183-195 apart from the
  strings rendered). These are presentation only.
- Plotly line charts and bar charts (app.py:74-100, 124-126). These are
  rendering.
- Loading the CSV (app.py:13) is I/O. The `KeyError` pandas raises when a
  listed column is missing is left out too: a `WideRecord` has all fifteen
  columns by construction.
- `pd.to_datetime` (app.py:107, 115-116) is library parsing. Dates are
  integers that are already in order.
- The date and platform widgets (app.py:109-112) are parameters of the
  filter. The platform selection is a set of `Platform` values, so a
  selected string that names no platform is not modelled.
- The float means and `.round(2)` (app.py:56-64, 137-139) are
  floating-point numerics. `Insights.BestPlatform` takes the
  groupby-mean map as its input.
- The string forms of the float averages (`f"{x}%"`, `f"${x}"`, app.py:175-180)
  depend on Python's float repr. The CTR, conversion-rate and CPC lines
  (app.py:189-191) are covered only by the generic `Highlighting.Judge` and
  `Highlighting.HighlightMetric`.
- Formatting.Tenths: an exact half-tenth goes to the even neighbour of the
  exact quotient. Python rounds the binary double `n/1000` or `n/1000000`
  instead, so n = 1050 gives "1.0K" here and "1.1K" in Python. The two agree
  everywhere else up to 2^53.
- Formatting.FormatNum: the decimal digit follows round-half-to-even on the
  exact quotient. Python rounds the binary double `n/1000` or `n/1000000`
  instead. The two differ only on exact half-tenths (n ≡ 50 mod 100 in the K
  range, n ≡ 50000 mod 100000 in the M range) and above 2^53, where the
  double is inexact.
- The sums are unbounded integers. The 64-bit overflow of the pandas sums
  is not modelled, and neither are null or NaN cells (counts are `nat`).
- pandas groupby key order, the flattening of the summary columns
  (app.py:66) and `reset_index` (app.py:67) are library behaviour.
  `GroupSum` is a map and has no key order.

## Findings

| source | as written | input that shows it | evidently intended | confidence | as-written member | corrected member |
|---|---|---|---|---|---|---|
| app.py:184-186 | `highlight_metric` gets the strings produced by `format_num` and compares them in string order | Facebook views 999, AdWords views 1000 render as "999" and "1.0K"; '9' sorts after '1', so Facebook is marked although it has fewer views | compare the numeric totals and mark the larger | not executed | Insights.CountMarkMisorders | Insights.NumericCountMarkCorrect |
