/** The JC Index trend series: the measurement list ordered by date,
    earliest first, as fed to the chart. */
module Trend {
  import opened Records

  predicate SortedByDate(s: seq<JcMeasurement>) {
    forall i, j :: 0 <= i < j < |s| ==> DateLe(s[i].date, s[j].date)
  }

  predicate SortedDates(s: seq<Date>) {
    forall i, j :: 0 <= i < j < |s| ==> DateLe(s[i], s[j])
  }

  /** The dates of a series, in series order: the chart's x axis. */
  function Dates(s: seq<JcMeasurement>): (r: seq<Date>)
    ensures |r| == |s|
  {
    if s == [] then [] else [s[0].date] + Dates(s[1..])
  }

  lemma {:induction false} DatesAt(s: seq<JcMeasurement>, i: nat)
    requires i < |s|
    ensures Dates(s)[i] == s[i].date
  {
    if i > 0 {
      DatesAt(s[1..], i - 1);
    }
  }

  /** A series sorted by date has a sorted date axis. */
  lemma DatesSorted(s: seq<JcMeasurement>)
    requires SortedByDate(s)
    ensures SortedDates(Dates(s))
  {
    forall i, j | 0 <= i < j < |s| ensures DateLe(Dates(s)[i], Dates(s)[j]) {
      DatesAt(s, i);
      DatesAt(s, j);
    }
  }

  /** Places m into a date-sorted series before the first entry not earlier than it. */
  function InsertByDate(m: JcMeasurement, s: seq<JcMeasurement>): (r: seq<JcMeasurement>)
    requires SortedByDate(s)
    ensures SortedByDate(r)
    ensures multiset(r) == multiset(s) + multiset{m}
    ensures forall x :: x in r <==> x == m || x in s
  {
    if s == [] || DateLe(m.date, s[0].date) then [m] + s
    else
      var rest := InsertByDate(m, s[1..]);
      assert s == [s[0]] + s[1..];
      assert forall j :: 0 <= j < |rest| ==> DateLe(s[0].date, rest[j].date) by {
        forall j | 0 <= j < |rest| ensures DateLe(s[0].date, rest[j].date) {
          assert rest[j] in rest;
        }
      }
      [s[0]] + rest
  }

  /** The trend series: the measurements in ascending date order. Entries
      that share a date may come out in any order. */
  function SortByDate(s: seq<JcMeasurement>): (r: seq<JcMeasurement>)
    ensures SortedByDate(r)
    ensures multiset(r) == multiset(s)
  {
    if s == [] then []
    else
      assert s == [s[0]] + s[1..];
      InsertByDate(s[0], SortByDate(s[1..]))
  }

  lemma {:induction false} DatesConcat(x: seq<JcMeasurement>, y: seq<JcMeasurement>)
    ensures Dates(x + y) == Dates(x) + Dates(y)
  {
    if x != [] {
      assert (x + y)[1..] == x[1..] + y;
      DatesConcat(x[1..], y);
    } else {
      assert x + y == y;
    }
  }

  lemma SplitAt<T>(b: seq<T>, j: nat)
    requires j < |b|
    ensures b == b[..j] + ([b[j]] + b[j + 1..])
  {
  }

  /** Removing the entry at index j removes one copy of it from the multiset. */
  lemma MultisetRemoveAt<T>(b: seq<T>, j: nat)
    requires j < |b|
    ensures multiset(b[..j] + b[j + 1..]) == multiset(b) - multiset{b[j]}
  {
    SplitAt(b, j);
  }

  /** Taking out the entry at index j takes one copy of its date out of the
      date multiset. */
  lemma DatesRemoveAt(b: seq<JcMeasurement>, j: nat)
    requires j < |b|
    ensures multiset(Dates(b)) == multiset{b[j].date} + multiset(Dates(b[..j] + b[j + 1..]))
  {
    var before, after := Dates(b[..j]), Dates(b[j + 1..]);
    DatesConcat([b[j]], b[j + 1..]);
    DatesConcat(b[..j], [b[j]] + b[j + 1..]);
    DatesConcat(b[..j], b[j + 1..]);
    SplitAt(b, j);
    assert Dates(b) == before + ([b[j].date] + after);
    assert multiset(Dates(b)) == multiset(before) + multiset{b[j].date} + multiset(after);
  }

  /** Equal multisets of measurements have equal multisets of dates. */
  lemma {:induction false} DatesPreserveMultiset(a: seq<JcMeasurement>, b: seq<JcMeasurement>)
    requires multiset(a) == multiset(b)
    ensures multiset(Dates(a)) == multiset(Dates(b))
    decreases |a|
  {
    if a == [] {
      assert |multiset(b)| == 0;
      assert b == [];
    } else {
      var x := a[0];
      assert x in multiset(b);
      var j :| 0 <= j < |b| && b[j] == x;
      var rest := b[..j] + b[j + 1..];
      MultisetRemoveAt(a, 0);
      MultisetRemoveAt(b, j);
      assert a[..0] + a[1..] == a[1..];
      DatesPreserveMultiset(a[1..], rest);
      DatesRemoveAt(a, 0);
      DatesRemoveAt(b, j);
    }
  }

  /** Two date sequences that are sorted and hold the same dates are equal. */
  lemma {:induction false} SortedDatesUnique(p: seq<Date>, q: seq<Date>)
    requires SortedDates(p) && SortedDates(q)
    requires multiset(p) == multiset(q)
    ensures p == q
    decreases |p|
  {
    if p == [] {
      assert |multiset(q)| == 0;
    } else {
      assert |q| == |multiset(q)| == |multiset(p)| == |p|;
      assert p[0] in multiset(q);
      assert q[0] in multiset(p);
      var k :| 0 <= k < |q| && q[k] == p[0];
      var i :| 0 <= i < |p| && p[i] == q[0];
      assert DateLe(p[0], p[i]);
      assert DateLe(q[0], q[k]);
      DateLeTotalOrder(p[0], q[0], p[0]);
      assert p[0] == q[0];
      assert p == [p[0]] + p[1..];
      assert q == [q[0]] + q[1..];
      assert multiset(p) == multiset{p[0]} + multiset(p[1..]);
      assert multiset(q) == multiset{q[0]} + multiset(q[1..]);
      assert multiset(p[1..]) == multiset(p) - multiset{p[0]} == multiset(q) - multiset{q[0]} == multiset(q[1..]);
      SortedDatesUnique(p[1..], q[1..]);
    }
  }

  /** Every ascending sort of the measurements, stable or not, puts the same
      dates on the chart's axis as SortByDate does. */
  lemma TrendDatesDetermined(ms: seq<JcMeasurement>, other: seq<JcMeasurement>)
    requires multiset(other) == multiset(ms)
    requires SortedByDate(other)
    ensures Dates(other) == Dates(SortByDate(ms))
  {
    var mine := SortByDate(ms);
    DatesPreserveMultiset(other, mine);
    DatesSorted(other);
    DatesSorted(mine);
    SortedDatesUnique(Dates(other), Dates(mine));
  }
}
