/** Model of the status line the sample driver prints before showing the gauge.

    The driver recomputes the positive share from its own tallies and runs a
    ladder of its own over it to pick a status message and a colour name.
    This module states that ladder and proves that it always agrees with the
    builder's bar-colour ladder.
 */
module ConsoleStatus {
  import opened SentimentKpi

  /** The three outcomes of the driver's ladder. */
  datatype Status = Reached | Near | Below

  /** The driver's ladder over the current share and the target, checked top-down.
      It agrees with the builder's tier ladder on every share and target, and the
      target counts as reached exactly when the printed difference is not negative. */
  function StatusOf(current: real, target: real): (r: Status)
    ensures r == StatusOfTier(TierOf(current, target))
    ensures r == Reached <==> Difference(current, target) >= 0.0
  {
    if current >= target then Reached
    else if current >= target * 0.7 then Near
    else Below
  }

  /** The message printed for a status; different statuses print different messages. */
  function Message(s: Status): (r: string)
    ensures r == "✅ ¡OBJETIVO ALCANZADO!" <==> s == Reached
    ensures r == "⚠️  Cerca del objetivo" <==> s == Near
    ensures r == "❌ Por debajo del objetivo" <==> s == Below
  {
    match s
    case Reached => "✅ ¡OBJETIVO ALCANZADO!"
    case Near => "⚠️  Cerca del objetivo"
    case Below => "❌ Por debajo del objetivo"
  }

  /** The colour name the driver assigns for a status; different statuses get different
      names. The driver stores it in `color_estado` but never prints or reads it. */
  function ColorName(s: Status): (r: string)
    ensures r == "verde" <==> s == Reached
    ensures r == "amarillo" <==> s == Near
    ensures r == "rojo" <==> s == Below
  {
    match s
    case Reached => "verde"
    case Near => "amarillo"
    case Below => "rojo"
  }

  /** The tier the builder gives the same share, as seen by the driver. */
  function StatusOfTier(t: Tier): Status
  {
    match t
    case High => Reached
    case Medium => Near
    case Low => Below
  }

  /** The signed distance to the target, in percentage points, that the driver prints. */
  function Difference(current: real, target: real): (r: real)
    ensures target + r == current
    ensures r >= 0.0 <==> current >= target
  {
    current - target
  }

  /** For the same tallies and target, the driver's status names the tier whose colour
      the builder paints the bar with: the default palette's red, amber, green match the
      assigned (unprinted) colour names "rojo", "amarillo", "verde". */
  lemma DriverMatchesChart(positives: int, negatives: int, neutrals: int, target: real,
                           title: string, showBreakdown: bool)
    requires Total(positives, negatives, neutrals) != 0
    ensures var total := Total(positives, negatives, neutrals);
            var current := Percentage(positives, total);
            var r := BuildChart(positives, negatives, neutrals, target, title, showBreakdown, None);
            && r.Success?
            && r.value.value == current
            && r.value.barColor == DefaultColors[Rank(TierOf(current, target))]
            && (ColorName(StatusOf(current, target)) == "verde" <==> r.value.barColor == "#2ecc71")
            && (ColorName(StatusOf(current, target)) == "amarillo" <==> r.value.barColor == "#f39c12")
            && (ColorName(StatusOf(current, target)) == "rojo" <==> r.value.barColor == "#e74c3c")
  {
  }

  /** The driver's sample run: 120/30/50 against 70 is 60 percent, near the target,
      10 points below it. */
  lemma SampleRun()
    ensures var current := Percentage(120, Total(120, 30, 50));
            && current == 60.0
            && StatusOf(current, 70.0) == Near
            && ColorName(StatusOf(current, 70.0)) == "amarillo"
            && Message(StatusOf(current, 70.0)) == "⚠️  Cerca del objetivo"
            && Difference(current, 70.0) == -10.0
  {
  }
}
