# Sentiment KPI gauge — a verified model

`analisis_sent.py` builds a gauge-style KPI chart from three sentiment tallies
(positive, negative, neutral). `grafico_kpi_sentimiento` adds the tallies and
refuses a zero total. It turns each tally into a percentage of the total. A
three-step threshold ladder compares the positive percentage with a target
and picks the bar colour from a three-colour palette (red, amber, green by
default). It then fills in a gauge description:

- the positive percentage as the value;
- a delta and a threshold marker at the target;
- a 0..100 axis with a tick every 20;
- three fixed background zones;
- an optional breakdown annotation.

The script's `__main__` block runs a second copy of the ladder to print a
status line.

The model has two modules:

- `SentimentKpi` (`sentiment_kpi.dfy`) models the builder.
  `BuildChart` returns `Result<ChartSpec>`.
  `ChartSpec` keeps only the semantic fields of the figure.
  The builder's two modelled failures are `Failure(EmptyTotal)`, Python's `ValueError`,
  and `Failure(MissingColor)`, Python's `IndexError` for a palette that is too short.
  Plotly's own validation of caller colours, which also raises `ValueError`, is not
  modelled (see "Left out").
  The lemmas prove these properties:
  - the percentages partition 100 and lie in [0, 100];
  - the ladder's bands, tie-breaking and monotonicity;
  - the ladder agrees with a division-free ladder on the tallies;
  - more positive tallies never lower the tier;
  - the colour wiring of the number, bar and delta;
  - the fixed axis and background zones;
  - the annotation is present if and only if the breakdown flag is set.
- `ConsoleStatus` (`console_status.dfy`) models the driver's status ladder.
  Its contract states that it agrees with the builder's ladder for every input.

The counts are `int`, as the source's type hints say, and the source does not
check their sign. So the zero-total error and the partition of 100 are proved
for any integers. The bounds [0, 100] are proved for non-negative tallies.
Floats are modelled as exact `real` numbers.

The function's docstring describes `colores_gauge` as an optional list of three
colours, low, medium and high (analisis_sent.py:24). The code only indexes
positions 0, 1 and 2. A longer list is
therefore accepted, and a shorter one fails with `IndexError` after the
zero-total check. The model follows the code.

## Model

| member | source | states |
|---|---|---|
| `SentimentKpi.BuildChart` | analisis_sent.py:31-80 | The build fails with the empty-input error exactly when the three counts sum to zero. That check comes first. It fails with the index error exactly when the total is non-zero and the palette in use has fewer than three colours. In exact arithmetic, every other input whose colours Plotly accepts gives a chart. |
| `SentimentKpi.Total` | analisis_sent.py:39 | For non-negative tallies the total is zero exactly when all three tallies are zero, and it is at least each tally. |
| `SentimentKpi.Palette` | analisis_sent.py:31-36 | The palette is the caller's list when one is given and otherwise the three default colours. It has fewer than three entries exactly when the caller's list does. |
| `SentimentKpi.BuildChartWithDefaults` | analisis_sent.py:5-13 | Called with only the three tallies, the builder uses target 70, the title "KPI: Sentimiento Positivo", the breakdown and the default palette. It fails, with the empty-input error, exactly when the total is zero. |
| `SentimentKpi.Percentage` | analisis_sent.py:45-47 | A count's percentage, multiplied by the total, is 100 times the count. |
| `SentimentKpi.PercentagesPartition` | analisis_sent.py:39-47 | For any tallies with a non-zero total, the positive, negative and neutral percentages sum to exactly 100. |
| `SentimentKpi.PercentageBounds` | analisis_sent.py:45-47 | A percentage of a non-negative tally that is at most a non-zero total lies in [0, 100]. |
| `SentimentKpi.PercentageGrowsWithCount` | analisis_sent.py:39-45 | With the other tallies fixed and non-negative, a larger positive tally never gives a smaller positive percentage. |
| `SentimentKpi.TierOf` | analisis_sent.py:51-56 | The ladder: High holds if and only if pct >= target. Medium holds if and only if 0.7*target <= pct < target. Low holds if and only if pct is below both target and 0.7*target. |
| `SentimentKpi.TierBoundaryTies` | analisis_sent.py:51-56 | A share equal to the target is High, and any share below the target is not High. A share equal to 0.7*target is Medium for a positive target, and a share below 0.7*target is never Medium (ties go to the higher tier). |
| `SentimentKpi.TierMonotone` | analisis_sent.py:51-56 | A higher positive percentage never yields a lower tier, for every target. |
| `SentimentKpi.TierAntitoneInTarget` | analisis_sent.py:51-56 | Raising the target never raises the tier. |
| `SentimentKpi.TierMatchesCounts` | analisis_sent.py:45-56 | For a positive total, the ladder on the percentage equals a reference ladder on the counts with no division. That ladder compares 100*positives with target*total and 0.7*target*total. |
| `SentimentKpi.MorePositivesNeverLowerTier` | analisis_sent.py:39-56 | With the positive tallies non-negative and the negative and neutral tallies fixed and non-negative, adding positive tallies never lowers the tier. |
| `SentimentKpi.ChartReadings` | analisis_sent.py:59-117 | A built chart carries the caller's title. Its value is the positive percentage, and its tier agrees with the counts ladder. For non-negative counts the value lies in [0, 100]. The delta reference and the threshold marker are both the target. The marker line is the fixed red. The axis runs 0..100 from tick 0 with step 20. |
| `SentimentKpi.ChartColors` | analisis_sent.py:31-96 | The number and the bar share one colour, the palette entry at the tier's rank. The delta's increasing colour is palette[2] and its decreasing colour is palette[0]. With no caller palette these come from the default red, amber and green. |
| `SentimentKpi.ZonesAreFixed` | analisis_sent.py:104-108 | Any two successful builds have the same background zones, whatever their target, palette, counts, title or flag. The zones are three intervals starting at 0, 40 and 70 that tile [0, 100] in order. |
| `SentimentKpi.AnnotationReportsBreakdown` | analisis_sent.py:120-140 | The annotation is present if and only if the breakdown flag is set. When present it reports the total, each count with its own percentage (the positive one equal to the gauge value), the three percentages summing to 100, and the target. |
| `SentimentKpi.ZoneAndTierCanDisagree` | analisis_sent.py:51-56 | With a target of 90 and a positive share of 75, the value lies in the green background zone while the bar takes the amber colour. The zones do not follow the target. |
| `SentimentKpi.ExampleNearTarget` | analisis_sent.py:45-56 | The driver's sample of 120/30/50 against 70 gives 60 percent and the amber tier, 10 points below the target. |
| `SentimentKpi.ExampleTargetReached` | analisis_sent.py:45-56 | 150/30/20 against 70 gives 75 percent, the green colour and a delta of +5. |
| `SentimentKpi.ExampleBelowTarget` | analisis_sent.py:45-56 | 34/33/33 against 70 gives 34 percent, below 49, and the red colour. |
| `ConsoleStatus.StatusOf` | analisis_sent.py:194-206 | The driver's status ladder maps onto the builder's tier ladder for every share and target: reached is High, near is Medium, below is Low. The status is "reached" exactly when the printed difference is not negative. |
| `ConsoleStatus.Message` | analisis_sent.py:195-203 | Each status has its own message: "reached" prints the target-reached line, "near" the near-target line, "below" the below-target line, and no message belongs to two statuses. |
| `ConsoleStatus.ColorName` | analisis_sent.py:195-203 | Each status has its own colour name: "verde" exactly for reached, "amarillo" exactly for near, "rojo" exactly for below. The driver assigns this name to `color_estado` but never prints or reads it. |
| `ConsoleStatus.Difference` | analisis_sent.py:206 | The printed difference added to the target gives the current share, and it is non-negative exactly when the share reaches the target. |
| `ConsoleStatus.DriverMatchesChart` | analisis_sent.py:176-220 | For the same counts and target with the default palette, the driver's percentage is the gauge value. The colour name "verde", "amarillo" or "rojo" is assigned exactly when the bar is green, amber or red. The name is assigned but never printed. |
| `ConsoleStatus.SampleRun` | analisis_sent.py:157-206 | The built-in sample is 60 percent, "near the target" with its message and the colour name "amarillo", with a difference of -10 points. |

## Left out

- Plotly: building the figure object, `add_annotation`, `update_layout` and `show` are calls into the charting library. The model keeps only the semantic fields of the chart description. It drops fonts, sizes, widths, margins, the domain, the paper coordinates, the `%` suffixes, the gauge mode string and the white background colours.
- Floating point: percentages and the target are exact `real` numbers and 0.7 is exact. Under IEEE doubles `70.0 * 0.7` happens to round to exactly 49.0, but `90.0 * 0.7` is 62.99999999999999. So the boundary-tie results hold for the real-valued model only, and the partition of 100 holds only up to rounding in the source.
- BuildChart: does not model the `OverflowError` that Python's integer true division raises at analisis_sent.py:45-47 when a quotient is beyond the float range. That needs huge tallies of opposite signs, such as 10**400 and 1-10**400. The model divides exactly and returns a chart there.
- Number formatting: the one-decimal text of the annotation and of the console lines is float-to-text conversion. The annotation is modelled as its numbers (total, counts, percentages, target), not as its text.
- The console output: the `print` calls of the `__main__` block, `fig.show()` and the commented-out HTML export are I/O. Only the status ladder, its message and colour name, and the printed difference are modelled.
- Negative counts: the source accepts them, and so does the model. The percentage bounds are proved for non-negative counts only, because a negative count can give a share outside [0, 100].
- Colour validation: Plotly checks every colour property while `go.Indicator` is built inside the builder (analisis_sent.py:59-117). A caller colour it does not accept, such as `'a'`, makes the builder raise `ValueError`. That covers `palette[0]` and `palette[2]` always, and `palette[1]` when the tier is Medium. The model does not model this check. It treats colours as opaque strings and returns a chart for such a list.
