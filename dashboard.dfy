/** What the summary and tracking tabs derive from the two stored lists:
    the progress label, the latest measurement, the risk banner and the
    trend series. Every view is recomputed from the lists on each run. */
module Dashboard {
  import opened Options
  import opened Decimal
  import opened Risk
  import opened Records
  import opened Trend

  /** Number of infusions in the full treatment course. */
  const PLANNED_INFUSIONS: nat := 14
  /** The registry number shown on the summary tab; it is a fixed value. */
  const REGISTRY_ID := "123445"

  /** The risk banner: tier, badge and the JC Index it was computed from. */
  datatype Banner = Banner(tier: Tier, badge: Badge, jcIndex: real)

  datatype SummaryView = SummaryView(progress: string, latest: Option<JcMeasurement>, registry: string, banner: Option<Banner>)

  /** "Infusion <count> of 14": the count is rendered without leading zeros
      and reads back from the label. */
  function ProgressLabel(count: nat): (text: string)
    ensures |text| >= 16
    ensures text[..9] == "Infusion " && text[|text| - 6..] == " of 14"
    ensures CanonicalDigits(text[9..|text| - 6]) && ParseNat(text[9..|text| - 6]) == Some(count)
  {
    var digits := NatToString(count);
    var text := "Infusion " + digits + " of 14";
    ParseNatToString(count);
    assert text[9..|text| - 6] == digits;
    text
  }

  /** The latest measurement is the entry at the head of the list, the one
      saved most recently, whatever its date; an empty list has none. */
  function Latest(jcs: seq<JcMeasurement>): (r: Option<JcMeasurement>)
    ensures r.None? <==> jcs == []
    ensures r.Some? ==> r.value == jcs[0] && r.value in jcs
  {
    if jcs == [] then None else Some(jcs[0])
  }

  /** The risk banner classifies the latest measurement; there is no banner
      for an empty list. */
  function RiskBanner(jcs: seq<JcMeasurement>): (r: Option<Banner>)
    ensures r.None? <==> jcs == []
    ensures r.Some? ==> r.value.jcIndex == jcs[0].jcIndex
    ensures r.Some? ==> (r.value.tier == High <==> jcs[0].jcIndex >= 4.0)
    ensures r.Some? ==> (r.value.tier == Medium <==> 3.5 <= jcs[0].jcIndex < 4.0)
    ensures r.Some? ==> (r.value.tier == Low <==> jcs[0].jcIndex < 3.5)
    ensures r.Some? ==> r.value.badge == BadgeOf(r.value.tier)
  {
    match Latest(jcs)
    case None => None
    case Some(m) =>
      var (tier, badge) := CalculateRisk(m.jcIndex);
      Some(Banner(tier, badge, m.jcIndex))
  }

  /** The trend chart is drawn only for a non-empty list; its series holds
      exactly the stored measurements, earliest date first. */
  function TrendSeries(jcs: seq<JcMeasurement>): (r: Option<seq<JcMeasurement>>)
    ensures r.None? <==> jcs == []
    ensures r.Some? ==> SortedByDate(r.value) && multiset(r.value) == multiset(jcs)
  {
    if jcs == [] then None else Some(SortByDate(jcs))
  }

  /** The summary tab: progress over the infusion list, then the latest
      measurement, the registry number and the banner from the JC list. */
  function Summary(infusions: seq<Infusion>, jcs: seq<JcMeasurement>): (v: SummaryView)
    ensures |v.progress| >= 16 && ParseNat(v.progress[9..|v.progress| - 6]) == Some(|infusions|)
    ensures v.latest.None? <==> v.banner.None?
    ensures v.latest.Some? ==> v.banner.value.tier == CalculateRisk(v.latest.value.jcIndex).0
    ensures v.latest == Latest(jcs) && v.registry == REGISTRY_ID
    ensures v.progress == ProgressLabel(|infusions|) && v.banner == RiskBanner(jcs)
  {
    SummaryView(ProgressLabel(|infusions|), Latest(jcs), REGISTRY_ID, RiskBanner(jcs))
  }

  /** Saving a measurement makes it the latest one and sets the banner from
      its JC Index, even when its date is earlier than a stored one. */
  lemma SavedMeasurementIsLatest(m: JcMeasurement, jcs: seq<JcMeasurement>)
    ensures Latest([m] + jcs) == Some(m)
    ensures RiskBanner([m] + jcs).value.tier == CalculateRisk(m.jcIndex).0
  {
  }

  /** "Latest" is insertion order, not date order: a back-dated entry saved
      on top of the bootstrap rows becomes the latest although the row below
      it is later. */
  lemma LatestIsNotNewestDate()
    ensures var jcs := [NewJcEntry(Date(2025, 1, 2), 2.0, FollowUp, "")] + SeedJcMeasurements();
            Latest(jcs) == Some(jcs[0]) && !DateLe(jcs[1].date, jcs[0].date)
  {
  }

  /** The bootstrap rows open with "Infusion 4 of 14" and a High banner at 4.5. */
  lemma SeedSummary()
    ensures RiskBanner(SeedJcMeasurements()) == Some(Banner(High, RedCircle, 4.5))
    ensures ProgressLabel(|SeedInfusions()|) == "Infusion 4 of 14"
  {
  }
}
