# Mood dashboard aggregation, modelled in Dafny

This project models the client-side aggregation on the wellness dashboard
page of a mental-health tracking web application, and proves properties of
that model. The dashboard receives the user's daily entries (mood, stress
level, hours slept, journal text) in date order and derives four things from
them:

- a **mood taxonomy**: `moodToNumber` scores a mood that is either one of five
  labels (Down, Content, Peaceful, Happy, Excited) or already a number, and
  `numberToMood` maps a score back to a label through five contiguous bands;
- **summary statistics** over the most recent week (at most 7 entries): mean
  mood, mean stress, summed sleep, the total entry count and a two-half trend
  (`positive`, `stable` or `needs attention`, with a 0.5 threshold);
- a **chart series**: one point per entry with the date, mood score, stress
  and sleep;
- a **mood distribution**: per-label counts in the fixed order Excited, Happy,
  Peaceful, Content, Down, with empty labels dropped;

and, for each history item, a **badge** whose colour tier comes from the mood
score (8 and up, 6 and up, otherwise) and whose text is the mood label.

Modules, one per component:

- `Taxonomy` (`taxonomy.dfy`): moods, the five bands, the forward table and the band map.
- `Entries` (`entries.dfy`): the entry record and its per-field projections.
- `Stats` (`stats.dfy`): sums, least/greatest element and means of number sequences.
- `Summary` (`summary.dfy`): the recent-week window, the half split, the trend and the summary record.
- `Chart` (`chart.dfy`): the chart series.
- `Distribution` (`distribution.dfy`): the label counts and the non-empty slices.
- `Badge` (`badge.dfy`): the history badge tier and text.

Modelling choices:

- Moods are `Label(text)` or `Num(score)` with an integer score.
- Means and the trend comparison use exact Dafny `real`s.
- The label table is a finite map with the default score 5 for any other string.
- `numberToMood` returns a `Band` value whose `Name()` is the label string.
- The summary record holds the numeric values before display formatting.

Facts about the code worth knowing up front:

- The empty history's averages are the string `'0'`; the model records the value zero.
- There is no separate insufficient-data trend: three or fewer entries are `stable`.
- A numeric mood passes through unchanged, with no clamping to 1–10.
- A positive trend needs more than a non-decreasing run: `[5, 5, 5, 6]` is stable, while any strictly increasing window of four or more scores is positive.

## Model

| member | source | states |
|---|---|---|
| Taxonomy.ParseLabel | src/app/dashboard/page.tsx:29-35 | a string is recognised exactly when it spells one of the five labels, and then as that label |
| Taxonomy.MoodToNumber | src/app/dashboard/page.tsx:26-38 | a numeric mood is returned unchanged; every label, known or not, scores one of 2, 5, 7, 8, 9; an unknown label scores 5 |
| Taxonomy.MoodMapKeys | src/app/dashboard/page.tsx:29-37 | the score table knows exactly the five label spellings; every other string falls to the default |
| Taxonomy.LabelScores | src/app/dashboard/page.tsx:29-35 | Down, Content, Peaceful, Happy, Excited score 2, 5, 7, 8, 9 |
| Taxonomy.MoodToNumberIdempotent | src/app/dashboard/page.tsx:27 | scoring an already-scored mood again changes nothing |
| Taxonomy.NumberToMood | src/app/dashboard/page.tsx:41-47 | every integer is sent to the label of the band it lies in (≤2, 3–4, 5–6, 7–8, ≥9) |
| Taxonomy.BandsPartition | src/app/dashboard/page.tsx:41-47 | a score lies in a band if and only if that band is the one chosen, so the bands do not overlap and cover all integers |
| Taxonomy.BandContiguous | src/app/dashboard/page.tsx:41-47 | each band is an interval: a score between two scores of a band is in that band |
| Taxonomy.NumberToMoodMonotone | src/app/dashboard/page.tsx:41-47 | a higher score never gets a lower band |
| Taxonomy.NumberToMoodNoGap | src/app/dashboard/page.tsx:41-47 | raising a score by one moves at most one band up |
| Taxonomy.LabelRoundTrip | src/app/dashboard/page.tsx:26-47 | label → score → label is the identity exactly for Down, Happy and Excited; Content returns as Peaceful and Peaceful as Happy |
| Entries.ScoresSlice | src/app/dashboard/page.tsx:166-169 | scoring a slice of the entries equals slicing their scores, so splitting before or after scoring agrees |
| Stats.MeanBounds | src/app/dashboard/page.tsx:159-160 | a mean of values that all lie in [lo, hi] lies in [lo, hi] |
| Stats.MeanBetweenMinMax | src/app/dashboard/page.tsx:159-160 | a mean lies between the least and greatest value averaged |
| Summary.Window | src/app/dashboard/page.tsx:158 | the window is the suffix of length min(7, n) of the entries |
| Summary.Split | src/app/dashboard/page.tsx:166-167 | the halves concatenate to the window, the first has floor(len/2) elements and the second is as long or one longer |
| Summary.Classify | src/app/dashboard/page.tsx:171-172 | positive if and only if the second mean exceeds the first by more than 0.5, needs-attention if and only if it falls short by more than 0.5, stable if and only if they are within 0.5 of each other |
| Summary.TrendOf | src/app/dashboard/page.tsx:164-173 | three or fewer scores are stable; otherwise both halves are non-empty and the outcome is decided by their means as in Classify |
| Summary.Summarize | src/app/dashboard/page.tsx:147-181 | the empty history gives the zeroed stable summary; otherwise the means are the window's mood and stress means, each between the window's least and greatest value, the sleep is the window's sum, the trend is the window's trend (stable for three or fewer entries); the count is the whole history |
| Summary.SummaryTrend | src/app/dashboard/page.tsx:164-173 | with more than three entries the summary's trend is positive exactly when the window's second-half mean mood beats the first half's by more than 0.5, needs attention exactly when it falls short by more than 0.5, stable otherwise |
| Summary.OnlyRecentWeekCounts | src/app/dashboard/page.tsx:158-180 | entries older than the last seven change only the entry count |
| Summary.TotalSleepBounds | src/app/dashboard/page.tsx:161 | per-entry sleep bounds [lo, hi] bound the total sleep by lo and hi times the window length |
| Summary.RisingIsPositive | src/app/dashboard/page.tsx:164-173 | a strictly increasing window of more than three scores is positive |
| Summary.FallingNeedsAttention | src/app/dashboard/page.tsx:164-173 | a strictly decreasing window of more than three scores needs attention |
| Summary.FlatIsStable | src/app/dashboard/page.tsx:164-173 | a constant window is stable |
| Summary.MockWeekSummary | src/app/dashboard/page.tsx:50-114 | the demonstration week has mean mood 39/7, mean stress 31/7, 49.5 hours of sleep, 7 entries and a positive trend |
| Chart.ChartSeries | src/app/dashboard/page.tsx:185-192 | the series has one point per entry in the same order, mood scored, stress and sleep unchanged |
| Chart.ChartAppend | src/app/dashboard/page.tsx:186 | the series of a concatenation is the concatenation of the series |
| Chart.ChartMoodsAreScores | src/app/dashboard/page.tsx:188 | the chart's mood column equals the scores the summary averages |
| Chart.ChartWindow | src/app/dashboard/page.tsx:158-192 | the last week of the chart series is the series of the last week of entries |
| Chart.ChartAgreesWithSummary | src/app/dashboard/page.tsx:158-192 | the summary's mean mood is the mean of the last week of the chart's mood column |
| Distribution.BucketOf | src/app/dashboard/page.tsx:199-200 | a numeric mood is counted under its band; a label is counted under itself and is dropped if and only if it is not one of the five |
| Distribution.Distribution | src/app/dashboard/page.tsx:195-208 | counting into five counters and listing the non-empty ones in display order yields the distribution |
| Distribution.SlicesCounts | src/app/dashboard/page.tsx:205-207 | every listed slice is non-empty, carries its label's count and is for a listed label |
| Distribution.SlicesDescending | src/app/dashboard/page.tsx:205-207 | filtering keeps the label order |
| Distribution.SlicesComplete | src/app/dashboard/page.tsx:205-207 | a label has a slice if and only if some entry is counted under it |
| Distribution.DistributionShape | src/app/dashboard/page.tsx:195-208 | slices are non-empty with their label's count, in the order Excited, Happy, Peaceful, Content, Down without repeats, and a label appears if and only if it has entries |
| Distribution.CountedSplits | src/app/dashboard/page.tsx:198-203 | each counted entry is counted under exactly one label |
| Distribution.CountedBound | src/app/dashboard/page.tsx:198-203 | at most every entry is counted, and all are if and only if no mood is an unknown label |
| Distribution.SlicesTotal | src/app/dashboard/page.tsx:205-207 | dropping empty labels does not change the total |
| Distribution.DistributionTotal | src/app/dashboard/page.tsx:195-208 | the slice values sum to the counted entries, at most the number of entries, with equality if and only if every label mood is one of the five |
| Distribution.HappyHappyDown | src/app/dashboard/page.tsx:195-208 | moods Happy, Happy, Down give exactly the slices Happy 2 and Down 1 |
| Badge.TierOf | src/app/dashboard/page.tsx:272-276 | high if and only if the score is at least 8, medium if and only if it is 6 or 7, low if and only if it is below 6 |
| Badge.EntryTier | src/app/dashboard/page.tsx:257-276 | a numeric mood's tier is high exactly from 8 and low exactly below 6; a label is high exactly for Happy and Excited and medium exactly for Peaceful |
| Badge.BadgeText | src/app/dashboard/page.tsx:277 | a label is shown as written; a number is shown as the name of the band it lies in |
| Badge.TierMonotone | src/app/dashboard/page.tsx:273-275 | a higher score never gets a worse tier |
| Badge.LabelTiers | src/app/dashboard/page.tsx:257-276 | Happy and Excited are high, Peaceful is medium, every other label is low |
| Badge.BadgeAgreesWithDistribution | src/app/dashboard/page.tsx:277 | the badge of a counted mood names the label the distribution counts it under |

## Left out

- Loading entries from the hosted database and looking up the signed-in user (src/app/dashboard/page.tsx:122-143). This is network I/O inside a React effect; the model takes the entry sequence as its input.
- Summary.Summarize: the averages are exact rationals, not the one-decimal `toFixed(1)` strings the page shows. This is display formatting.
- Summary.Summarize: `totalSleep` is the exact sum, without the floating-point `Math.round(x * 10) / 10` rounding. This is display rounding.
- Summary.Classify: the 0.5 comparison is exact. It ignores binary floating-point rounding of the means.
- Chart.ChartSeries: the date is the stored date string, not the locale-formatted short date. The same goes for the history item's date line.
- Entries.Entry: stress levels are integers; fractional stress levels are not modelled.
- Taxonomy.MoodToNumber: numeric moods are integers. Fractional numeric moods, and the JavaScript quirk where a label such as `toString` hits an inherited property of the table, are not modelled. The table is a plain finite map with default 5.
- The up/down arrows on the metric cards compare the formatted average strings with 7 and 4. They depend on display formatting.
- All JSX, chart rendering, colours and animation, and the other pages and components: landing, contact, therapy, navigation bar, footer, branding and background effects. These are presentation only.
- The entry form page is not part of this model. It depends on an emotion table that is not available and on a database insert.
- The user-sync component and the two API routes are not part of this model. They are thin wrappers over the database, the generative-text service and a webhook.
