/** The two record kinds the dashboard stores, how a new record is built from
    the entry form's values, and the bootstrap rows a new session starts with. */
module Records {
  import opened Options
  import opened Decimal

  /** A calendar date without time of day. */
  datatype Date = Date(year: nat, month: nat, day: nat)

  /** Chronological order on dates: year, then month, then day. */
  predicate DateLe(a: Date, b: Date) {
    a.year < b.year
    || (a.year == b.year && (a.month < b.month || (a.month == b.month && a.day <= b.day)))
  }

  /** The chronological order is a total order. */
  lemma DateLeTotalOrder(a: Date, b: Date, c: Date)
    ensures DateLe(a, a)
    ensures DateLe(a, b) || DateLe(b, a)
    ensures DateLe(a, b) && DateLe(b, a) ==> a == b
    ensures DateLe(a, b) && DateLe(b, c) ==> DateLe(a, c)
  {
  }

  datatype JcType = Baseline | FollowUp

  /** An infusion event; dose and volume are labels derived from the weight. */
  datatype Infusion = Infusion(id: int, date: Date, weight: nat, dose: string, volume: string, notes: string)

  /** One JC Index measurement. */
  datatype JcMeasurement = JcMeasurement(date: Date, jcIndex: real, kind: JcType, notes: string)

  const INFUSION_NOTES_DEFAULT := "No notes"
  const JC_NOTES_DEFAULT := "N/A"

  /** An empty note is replaced by the default; any other note is kept. */
  function NoteOrDefault(notes: string, default: string): string {
    if notes == "" then default else notes
  }

  /** The dose label: ten milligrams per kilogram, "<mg> mg". */
  function DoseText(weight: nat): (s: string)
    ensures |s| >= 4 && s[|s| - 3..] == " mg"
    ensures CanonicalDigits(s[..|s| - 3])
  {
    var digits := NatToString(weight * 10);
    assert (digits + " mg")[..|digits|] == digits;
    digits + " mg"
  }

  /** The volume label: weight * 10 / 100 millilitres with one decimal,
      "<whole>.<tenth> mL". For an integer weight that amount is exactly
      weight tenths of a millilitre, so no rounding is involved. */
  function VolumeText(weight: nat): (s: string)
    ensures |s| >= 6 && s[|s| - 3..] == " mL"
    ensures s[|s| - 5] == '.' && IsDigit(s[|s| - 4])
    ensures CanonicalDigits(s[..|s| - 5])
  {
    var whole := NatToString(weight / 10);
    var text := whole + "." + [DigitChar(weight % 10)] + " mL";
    assert text[..|whole|] == whole;
    text
  }

  /** Reads the milligram amount back from a label "<digits> mg". */
  function ParseDoseMg(s: string): Option<nat> {
    if |s| >= 4 && s[|s| - 3..] == " mg" then ParseNat(s[..|s| - 3]) else None
  }

  /** Reads the millilitre amount back from a label "<digits>.<digit> mL". */
  function ParseVolumeMl(s: string): Option<real> {
    if |s| >= 6 && s[|s| - 3..] == " mL" && s[|s| - 5] == '.' && IsDigit(s[|s| - 4]) then
      match ParseNat(s[..|s| - 5])
      case Some(whole) => Some(whole as real + DigitValue(s[|s| - 4]) as real / 10.0)
      case None => None
    else None
  }

  /** The dose label denotes weight * 10 milligrams. */
  lemma DoseRoundTrip(weight: nat)
    ensures ParseDoseMg(DoseText(weight)) == Some(weight * 10)
  {
    var s := DoseText(weight);
    ParseNatToString(weight * 10);
    assert s[..|s| - 3] == NatToString(weight * 10);
  }

  /** The volume label denotes weight * 10 / 100 millilitres exactly. */
  lemma VolumeRoundTrip(weight: nat)
    ensures ParseVolumeMl(VolumeText(weight)) == Some((weight * 10) as real / 100.0)
  {
    var s := VolumeText(weight);
    var whole, tenth := weight / 10, weight % 10;
    ParseNatToString(whole);
    assert s[..|s| - 5] == NatToString(whole);
    assert s[|s| - 4] == DigitChar(tenth);
    assert weight == whole * 10 + tenth;
    assert (weight * 10) as real / 100.0 == whole as real + tenth as real / 10.0;
  }

  /** The infusion saved from the entry form: id, date, weight and a non-empty
      note are kept as entered; dose and volume are derived from the weight. */
  function NewInfusion(id: int, date: Date, weight: nat, notes: string): (r: Infusion)
    ensures r.id == id && r.date == date && r.weight == weight
    ensures r.dose == NatToString(weight * 10) + " mg"
    ensures r.volume == NatToString(weight / 10) + "." + [DigitChar(weight % 10)] + " mL"
    ensures ParseDoseMg(r.dose) == Some(weight * 10)
    ensures ParseVolumeMl(r.volume) == Some((weight * 10) as real / 100.0)
    ensures notes == "" ==> r.notes == INFUSION_NOTES_DEFAULT
    ensures notes != "" ==> r.notes == notes
  {
    DoseRoundTrip(weight);
    VolumeRoundTrip(weight);
    Infusion(id, date, weight, DoseText(weight), VolumeText(weight), NoteOrDefault(notes, INFUSION_NOTES_DEFAULT))
  }

  /** The JC measurement saved from the entry form: every field is kept as
      entered except that an empty note becomes "N/A". */
  function NewJcEntry(date: Date, jcIndex: real, kind: JcType, notes: string): (r: JcMeasurement)
    ensures r.date == date && r.jcIndex == jcIndex && r.kind == kind
    ensures notes == "" ==> r.notes == JC_NOTES_DEFAULT
    ensures notes != "" ==> r.notes == notes
  {
    JcMeasurement(date, jcIndex, kind, NoteOrDefault(notes, JC_NOTES_DEFAULT))
  }

  /** The four infusions a new session starts with, newest first: dates
      strictly decreasing, infusion numbers counting down from 21. */
  function SeedInfusions(): (r: seq<Infusion>)
    ensures |r| == 4
    ensures forall i, j :: 0 <= i < j < |r| ==> DateLe(r[j].date, r[i].date) && r[j].date != r[i].date
    ensures forall i :: 0 <= i < |r| ==> r[i].id == 21 - i && r[i].weight == 91
  {
    [ Infusion(21, Date(2025, 8, 27), 91, "910 mg", "9.1 mL", "infusion"),
      Infusion(20, Date(2025, 8, 13), 91, "910 mg", "9.1 mL", "No notes"),
      Infusion(19, Date(2025, 7, 28), 91, "910 mg", "9.1 mL", "No notes"),
      Infusion(18, Date(2025, 5, 12), 91, "910 mg", "9.1 mL", "No notes") ]
  }

  /** The six JC measurements a new session starts with, newest first, each
      within the form's range of 0.0 to 10.0. */
  function SeedJcMeasurements(): (r: seq<JcMeasurement>)
    ensures |r| == 6
    ensures forall i, j :: 0 <= i < j < |r| ==> DateLe(r[j].date, r[i].date) && r[j].date != r[i].date
    ensures forall i :: 0 <= i < |r| ==> 0.0 <= r[i].jcIndex <= 10.0
  {
    [ JcMeasurement(Date(2025, 8, 27), 4.5, Baseline, "mri"),
      JcMeasurement(Date(2025, 8, 13), 4.1, Baseline, "N/A"),
      JcMeasurement(Date(2025, 7, 30), 3.8, Baseline, "weew"),
      JcMeasurement(Date(2025, 7, 15), 3.6, Baseline, "1"),
      JcMeasurement(Date(2025, 6, 5), 3.2, Baseline, "44"),
      JcMeasurement(Date(2025, 5, 12), 3.4, FollowUp, "4r") ]
  }

  /** The bootstrap infusions are exactly what the entry form would have
      saved for a 91 kg patient: "910 mg" and "9.1 mL". */
  lemma SeedInfusionsAreDerived()
    ensures SeedInfusions() == [ NewInfusion(21, Date(2025, 8, 27), 91, "infusion"),
                                 NewInfusion(20, Date(2025, 8, 13), 91, ""),
                                 NewInfusion(19, Date(2025, 7, 28), 91, ""),
                                 NewInfusion(18, Date(2025, 5, 12), 91, "") ]
  {
    assert NatToString(9) == "9";
    assert NatToString(91) == NatToString(9) + [DigitChar(1)] == "91";
    assert NatToString(910) == NatToString(91) + [DigitChar(0)] == "910";
    assert DoseText(91) == "910 mg";
    assert VolumeText(91) == "9.1 mL";
  }

  /** An 80 kg entry gives "800 mg" and "8.0 mL". */
  lemma EightyKilogramExample()
    ensures NewInfusion(22, Date(2025, 9, 1), 80, "").dose == "800 mg"
    ensures NewInfusion(22, Date(2025, 9, 1), 80, "").volume == "8.0 mL"
    ensures NewInfusion(22, Date(2025, 9, 1), 80, "").notes == "No notes"
  {
  }
}
