/** The risk classifier: a JC Index value mapped to a Low, Medium or High
    tier and the coloured badge shown beside it. */
module Risk {
  import opened Options

  datatype Tier = Low | Medium | High

  /** The emoji shown with a tier: green, yellow or red circle. */
  datatype Badge = GreenCircle | YellowCircle | RedCircle

  const HIGH_THRESHOLD: real := 4.0
  const MEDIUM_THRESHOLD: real := 3.5

  function BadgeOf(t: Tier): Badge {
    match t
    case Low => GreenCircle
    case Medium => YellowCircle
    case High => RedCircle
  }

  /** Position of a tier in the order Low < Medium < High. */
  function Rank(t: Tier): nat {
    match t
    case Low => 0
    case Medium => 1
    case High => 2
  }

  /** Both thresholds are inclusive lower bounds: 4.0 is High, 3.5 is Medium,
      and every value below 3.5, negatives included, is Low. */
  function CalculateRisk(jcIndex: real): (r: (Tier, Badge))
    ensures r.0 == High <==> jcIndex >= 4.0
    ensures r.0 == Medium <==> 3.5 <= jcIndex < 4.0
    ensures r.0 == Low <==> jcIndex < 3.5
    ensures r.1 == BadgeOf(r.0)
  {
    if jcIndex >= HIGH_THRESHOLD then (High, RedCircle)
    else if jcIndex >= MEDIUM_THRESHOLD then (Medium, YellowCircle)
    else (Low, GreenCircle)
  }

  /** A larger JC Index never gives a lower tier. */
  lemma CalculateRiskMonotone(x: real, y: real)
    requires x <= y
    ensures Rank(CalculateRisk(x).0) <= Rank(CalculateRisk(y).0)
  {
  }

  // The legend in the sidebar describes the tiers as "Low: < 3.5",
  // "Medium: 3.5 - 4.0" and "High: > 4.0".

  /** One line of a legend: a tier and the interval of JC Index values it
      names. An absent bound is unbounded on that side. */
  datatype LegendLine = LegendLine(tier: Tier, lower: Option<real>, lowerInclusive: bool,
                                   upper: Option<real>, upperInclusive: bool)

  predicate InLine(line: LegendLine, x: real) {
    && (line.lower.Some? ==> (if line.lowerInclusive then line.lower.value <= x else line.lower.value < x))
    && (line.upper.Some? ==> (if line.upperInclusive then x <= line.upper.value else x < line.upper.value))
  }

  /** The legend as written: "3.5 - 4.0" is a closed range, "> 4.0" strict. */
  const LEGEND_AS_WRITTEN: seq<LegendLine> := [
    LegendLine(Low, None, false, Some(3.5), false),
    LegendLine(Medium, Some(3.5), true, Some(4.0), true),
    LegendLine(High, Some(4.0), false, None, false)
  ]

  /** The legend with the boundary moved: "Medium: 3.5 to below 4.0",
      "High: >= 4.0". */
  const LEGEND_CORRECTED: seq<LegendLine> := [
    LegendLine(Low, None, false, Some(3.5), false),
    LegendLine(Medium, Some(3.5), true, Some(4.0), false),
    LegendLine(High, Some(4.0), true, None, false)
  ]

  /** The legend as written puts 4.0 in its Medium line and not in its High
      line, while the classifier rates 4.0 High. */
  lemma LegendDisagreesAtFour()
    ensures InLine(LEGEND_AS_WRITTEN[1], 4.0) && LEGEND_AS_WRITTEN[1].tier == Medium
    ensures !InLine(LEGEND_AS_WRITTEN[2], 4.0) && LEGEND_AS_WRITTEN[2].tier == High
    ensures CalculateRisk(4.0).0 == High
  {
  }

  /** The corrected legend describes the classifier exactly: every value lies
      in the one line whose tier the classifier assigns to it, and in no
      other line. */
  lemma CorrectedLegendMatchesClassifier(x: real)
    ensures forall i :: 0 <= i < |LEGEND_CORRECTED| ==>
              (InLine(LEGEND_CORRECTED[i], x) <==> LEGEND_CORRECTED[i].tier == CalculateRisk(x).0)
  {
  }
}
