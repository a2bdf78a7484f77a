/** The per-session store: two lists kept under the keys "infusions" and
    "jc_measurements". A key is absent in a new session; the script seeds
    each absent key at the top of every run, and the save buttons put a new
    record at the front of its list in place. */
module Session {
  import opened Options
  import opened Records
  import opened Trend
  import opened Dashboard

  class SessionState {
    var infusions: Option<seq<Infusion>>
    var jcMeasurements: Option<seq<JcMeasurement>>

    /** Both lists are present: what every reader can rely on after Init. */
    predicate Ready()
      reads this
    {
      infusions.Some? && jcMeasurements.Some?
    }

    /** A new session holds neither key. */
    constructor ()
      ensures infusions == None && jcMeasurements == None
    {
      infusions := None;
      jcMeasurements := None;
    }

    /** Seeds each list that is absent, each key checked on its own; a list
        that is present, even an empty one, is left as it is. A second run
        therefore changes nothing. */
    method Init()
      modifies this
      ensures Ready()
      ensures old(infusions).None? ==> infusions == Some(SeedInfusions())
      ensures old(infusions).Some? ==> infusions == old(infusions)
      ensures old(jcMeasurements).None? ==> jcMeasurements == Some(SeedJcMeasurements())
      ensures old(jcMeasurements).Some? ==> jcMeasurements == old(jcMeasurements)
      ensures old(Ready()) ==> infusions == old(infusions) && jcMeasurements == old(jcMeasurements)
    {
      if infusions.None? {
        infusions := Some(SeedInfusions());
      }
      if jcMeasurements.None? {
        jcMeasurements := Some(SeedJcMeasurements());
      }
    }

    /** "Save Infusion": the new record goes in front of the old list; the JC
        list is untouched. */
    method SaveInfusion(id: int, date: Date, weight: nat, notes: string)
      requires infusions.Some?
      modifies this
      ensures infusions == Some([NewInfusion(id, date, weight, notes)] + old(infusions).value)
      ensures |infusions.value| == |old(infusions).value| + 1
      ensures infusions.value[1..] == old(infusions).value
      ensures jcMeasurements == old(jcMeasurements)
    {
      var rec := NewInfusion(id, date, weight, notes);
      infusions := Some([rec] + infusions.value);
    }

    /** "Save JC Entry": the new measurement goes in front of the old list,
        becomes the latest one and sets the risk banner; the infusion list is
        untouched. */
    method SaveJc(date: Date, jcIndex: real, kind: JcType, notes: string)
      requires jcMeasurements.Some?
      modifies this
      ensures jcMeasurements == Some([NewJcEntry(date, jcIndex, kind, notes)] + old(jcMeasurements).value)
      ensures |jcMeasurements.value| == |old(jcMeasurements).value| + 1
      ensures jcMeasurements.value[1..] == old(jcMeasurements).value
      ensures Latest(jcMeasurements.value) == Some(NewJcEntry(date, jcIndex, kind, notes))
      ensures infusions == old(infusions)
    {
      var rec := NewJcEntry(date, jcIndex, kind, notes);
      jcMeasurements := Some([rec] + jcMeasurements.value);
      SavedMeasurementIsLatest(rec, old(jcMeasurements).value);
    }

    /** The summary tab, read from the current lists: the progress count is
        the length of the infusion list, the latest measurement and the
        banner come from the head of the JC list. */
    method SummaryTab() returns (view: SummaryView)
      requires Ready()
      ensures view == Summary(infusions.value, jcMeasurements.value)
      ensures view.latest.None? <==> jcMeasurements.value == []
      ensures view.latest.Some? ==> view.latest.value == jcMeasurements.value[0]
    {
      view := Summary(infusions.value, jcMeasurements.value);
    }

    /** The trend chart's series, read from the current JC list: absent for
        an empty list, else every stored measurement in ascending date order. */
    method TrendTab() returns (series: Option<seq<JcMeasurement>>)
      requires Ready()
      ensures series.None? <==> jcMeasurements.value == []
      ensures series.Some? ==> SortedByDate(series.value)
      ensures series.Some? ==> multiset(series.value) == multiset(jcMeasurements.value)
    {
      series := TrendSeries(jcMeasurements.value);
    }
  }
}
