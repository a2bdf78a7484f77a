# JC Index drug-monitoring dashboard: verified model of the domain layer

The dashboard (`streamlit-jc-drug-monitoring.py`) tracks one patient's drug
infusions and a biomarker, the JC Index. Behind its three tabs sits a small
domain layer, and this project models that layer in Dafny:

- **Risk classifier** (`Risk`): `calculate_risk` maps a JC Index to Low,
  Medium or High together with a coloured badge. Both thresholds are
  inclusive lower bounds, so 4.0 is High and 3.5 is Medium.
- **Record construction** (`Records`, `Decimal`): a saved infusion derives
  its dose label (`"<weight*10> mg"`) and volume label (`weight*10/100`
  with one decimal, `" mL"`) from an integer weight. A saved JC measurement
  copies its fields through. An empty note becomes `"No notes"` for an
  infusion and `"N/A"` for a JC entry. The labels are built from decimal
  digit strings and proved to read back to the amounts they denote. The
  bootstrap rows are modelled too, and are proved to be exactly what the
  entry form would produce for 91 kg.
- **Session store** (`Session.SessionState`): a class with two fields, one
  per session key. Each field is `None` until the script seeds it. `Init`
  seeds each absent key on its own, so running it again changes nothing.
  `SaveInfusion` and `SaveJc` put the new record at the front of their list.
- **Dashboard views** (`Dashboard`, `Trend`): the progress label
  "Infusion N of 14" counts the infusion list. The latest measurement and
  the risk banner come from element 0 of the JC list, and only when that
  list is non-empty. The trend series is the JC list sorted ascending by
  date. It is specified as a date-sorted permutation, and any such sort
  gives the same date axis.

Two points follow the code rather than a more general design:
- The stored lists are never sorted. "Latest" is the most recently saved
  entry, not the entry with the latest date (`Dashboard.LatestIsNotNewestDate`).
- Nothing is scoped by patient. The patient identifier appears only in the
  export file names, which are not modelled.

The code also has no store-assigned JC ids, no `status` field on infusions
(the "Completed" badge is a fixed display label) and no persisted storage.
Initialisation checks whether a key is *absent*, not whether its list is
empty.

Dates are `(year, month, day)` triples, ordered chronologically. That is
the order in which the chart's sort compares the parsed ISO dates.

## Model

| member | source | states |
|---|---|---|
| Risk.CalculateRisk | streamlit-jc-drug-monitoring.py:34-39 | High exactly when x >= 4.0, Medium exactly when 3.5 <= x < 4.0, Low exactly when x < 3.5 (negatives included); the badge is the one for the tier |
| Risk.CalculateRiskMonotone | streamlit-jc-drug-monitoring.py:34-39 | a larger JC Index never yields a lower tier |
| Risk.LegendDisagreesAtFour | streamlit-jc-drug-monitoring.py:46-51 | with the legend's lines as intervals, 4.0 lies in the Medium line ("3.5 - 4.0") and outside the High line ("> 4.0"), while the classifier rates it High |
| Risk.CorrectedLegendMatchesClassifier | streamlit-jc-drug-monitoring.py:46-51 | with "Medium: 3.5 to below 4.0" and "High: >= 4.0", every value lies in exactly the legend line of the tier the classifier assigns |
| Decimal.NatToString | streamlit-jc-drug-monitoring.py:122 | the rendering of an integer is a non-empty digit string with no leading zero, one digit exactly for values below 10 |
| Decimal.CanonicalDigitsUnique | streamlit-jc-drug-monitoring.py:122 | a digit string with no leading zero is the rendering of the number it denotes, so the rendering is the only such string |
| Decimal.ParseNatToString | streamlit-jc-drug-monitoring.py:122 | reading a rendered integer back gives the integer |
| Decimal.NatToStringInjective | streamlit-jc-drug-monitoring.py:122 | distinct integers have distinct renderings |
| Records.DateLeTotalOrder | streamlit-jc-drug-monitoring.py:183-184 | date comparison is a total order: reflexive, total, antisymmetric, transitive |
| Records.DoseText | streamlit-jc-drug-monitoring.py:122 | the dose label is a number without leading zeros followed by " mg" |
| Records.VolumeText | streamlit-jc-drug-monitoring.py:123 | the volume label is a whole part without leading zeros, a point, exactly one digit and " mL", as the one-decimal format prints it |
| Records.DoseRoundTrip | streamlit-jc-drug-monitoring.py:122 | the dose label denotes weight * 10 mg |
| Records.VolumeRoundTrip | streamlit-jc-drug-monitoring.py:123 | the volume label denotes exactly weight * 10 / 100 mL, one digit after the point |
| Records.NewInfusion | streamlit-jc-drug-monitoring.py:121-132 | id, date and weight are kept; the dose is the rendering of weight * 10 followed by " mg", and reads back as that amount; the volume is the rendering of weight div 10, a point, the digit of weight mod 10 and " mL", and reads back as weight * 10 / 100 mL; an empty note becomes "No notes", any other note is kept |
| Records.NewJcEntry | streamlit-jc-drug-monitoring.py:165-171 | date, JC Index and type are kept; an empty note becomes "N/A", any other note is kept |
| Records.SeedInfusions | streamlit-jc-drug-monitoring.py:16-21 | four bootstrap infusions, newest first with strictly decreasing dates, numbered 21 down to 18, all at 91 kg |
| Records.SeedJcMeasurements | streamlit-jc-drug-monitoring.py:24-31 | six bootstrap measurements, newest first with strictly decreasing dates, each JC Index within 0.0 to 10.0 |
| Records.SeedInfusionsAreDerived | streamlit-jc-drug-monitoring.py:16-21 | each bootstrap infusion is what the entry form saves for 91 kg: "910 mg", "9.1 mL", empty notes shown as "No notes" |
| Records.EightyKilogramExample | streamlit-jc-drug-monitoring.py:121-132 | an 80 kg entry with no note gives "800 mg", "8.0 mL" and "No notes" |
| Trend.InsertByDate | streamlit-jc-drug-monitoring.py:184 | inserting into a date-sorted series keeps it sorted and adds exactly the one entry |
| Trend.SortByDate | streamlit-jc-drug-monitoring.py:182-184 | the result is sorted ascending by date and is a permutation of the input |
| Trend.TrendDatesDetermined | streamlit-jc-drug-monitoring.py:184 | every ascending date sort of the same measurements, stable or not, gives the same sequence of dates |
| Dashboard.ProgressLabel | streamlit-jc-drug-monitoring.py:66-70 | the label is "Infusion " + digits + " of 14", where the digits have no leading zero and read back to the count |
| Dashboard.Latest | streamlit-jc-drug-monitoring.py:73-74 | absent exactly for an empty list, otherwise element 0 |
| Dashboard.RiskBanner | streamlit-jc-drug-monitoring.py:89-104 | absent exactly for an empty list; otherwise the tier of element 0's JC Index under the thresholds above, its badge, and that JC Index |
| Dashboard.TrendSeries | streamlit-jc-drug-monitoring.py:178-184 | absent exactly for an empty list; otherwise a date-sorted permutation of the list |
| Dashboard.Summary | streamlit-jc-drug-monitoring.py:59-92 | the progress is the "Infusion N of 14" label of the infusion count; the latest measurement and the banner are present together, the banner is the risk banner of the JC list, and its tier classifies the latest JC Index; the registry number is fixed |
| Dashboard.SavedMeasurementIsLatest | streamlit-jc-drug-monitoring.py:173 | after a save the new measurement is the latest and the banner classifies its JC Index |
| Dashboard.LatestIsNotNewestDate | streamlit-jc-drug-monitoring.py:74 | a back-dated entry saved last is "latest" although the row below it has a later date |
| Dashboard.SeedSummary | streamlit-jc-drug-monitoring.py:15-31 | the bootstrap state shows "Infusion 4 of 14" and a High banner at 4.5 |
| Session.SessionState.constructor | streamlit-jc-drug-monitoring.py:15 | a new session holds neither list |
| Session.SessionState.Init | streamlit-jc-drug-monitoring.py:15-31 | each absent list is seeded with its bootstrap rows, independently; a present list is unchanged; on a ready state nothing changes |
| Session.SessionState.SaveInfusion | streamlit-jc-drug-monitoring.py:121-134 | the infusion list becomes [new record] + old list (one longer, old list as tail); the JC list is unchanged |
| Session.SessionState.SaveJc | streamlit-jc-drug-monitoring.py:165-173 | the JC list becomes [new record] + old list, and the new record is the latest; the infusion list is unchanged |
| Session.SessionState.SummaryTab | streamlit-jc-drug-monitoring.py:59-92 | the summary view of the current lists: latest absent exactly when the JC list is empty, else its element 0 |
| Session.SessionState.TrendTab | streamlit-jc-drug-monitoring.py:178-184 | no series for an empty JC list, else a date-sorted permutation of it |

## Left out

- Widgets, layout, tabs, expanders, emoji text, success messages, the "Select Status" box and `st.rerun`: presentation only. The badge is kept as a three-valued datatype, not as emoji characters.
- Plotly chart rendering: a foreign library call. Only the sort that feeds it is modelled.
- pandas DataFrame construction and CSV export, with the patient identifier in the export file names: thin wrappers over libraries that are not part of this model.
- `str(date)` and `pd.to_datetime`: dates are (year, month, day) triples, not ISO strings.
- The JC Index is an exact `real`, not a binary float. Its display formatting is not modelled.
- Records.VolumeRoundTrip: weight * 10 / 100 is exact arithmetic here. Python computes it in binary floating point, which agrees only while weight * 10 stays well below 2^53.
- Records.NewInfusion: the weight is a `nat`. The form's `min_value=1` on weight and infusion number, and its [0, 10] range for the JC Index, are widget bounds. The save methods do not require them, and negative weights are not modelled.
- Trend.SortByDate: the order of measurements that share a date is not specified. pandas' default quicksort is not stable, so only the date axis is proved to be determined (Trend.TrendDatesDetermined).

## Findings

| source | as written | input that shows it | evidently intended | confidence | as-written member | corrected member |
|---|---|---|---|---|---|---|
| streamlit-jc-drug-monitoring.py:48-50 | the legend reads "Medium: 3.5 - 4.0" and "High: > 4.0" | JC Index 4.0: the legend puts it in Medium, the banner shows High | "High: >= 4.0", as `calculate_risk` classifies at line 35 | medium; not executed | Risk.LegendDisagreesAtFour | Risk.CorrectedLegendMatchesClassifier |
