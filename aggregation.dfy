/** The dashboard's grouping of samples into weekly and monthly chart series.
    The host derives a sample's weekday and calendar month from its timestamp with
    locale-dependent date functions; here both are given with the sample. */
module Aggregation {
  import Sorting

  datatype Weekday = Monday | Tuesday | Wednesday | Thursday | Friday | Saturday | Sunday

  /** The order in which the weekly chart lists the days. */
  const Week: seq<Weekday> := [Monday, Tuesday, Wednesday, Thursday, Friday, Saturday, Sunday]

  function DayNumber(d: Weekday): (n: nat)
    ensures n < |Week| && Week[n] == d
  {
    match d
    case Monday => 0
    case Tuesday => 1
    case Wednesday => 2
    case Thursday => 3
    case Friday => 4
    case Saturday => 5
    case Sunday => 6
  }

  type Month = m: int | 1 <= m <= 12 witness 1

  /** A calendar month of a given year: the key the monthly chart groups by. */
  datatype MonthKey = MonthKey(year: int, month: Month)

  /** Months counted from January of year 0: the order of the months' first days. */
  function MonthStart(k: MonthKey): int
  {
    k.year * 12 + k.month - 1
  }

  lemma MonthStartInjective(a: MonthKey, b: MonthKey)
    ensures MonthStart(a) == MonthStart(b) ==> a == b
  {
    if a.year < b.year {
      assert MonthStart(a) < MonthStart(b);
    } else if a.year > b.year {
      assert MonthStart(a) > MonthStart(b);
    }
  }

  datatype Sample = Sample(timestamp: int, value: int, weekday: Weekday, month: MonthKey)

  function TimestampOf(x: Sample): int { x.timestamp }
  function WeekdayOf(x: Sample): Weekday { x.weekday }
  function MonthOf(x: Sample): MonthKey { x.month }

  /** A running total and number of samples for one group. */
  datatype Tally = Tally(total: int, count: nat)

  function Sum(xs: seq<int>): int
  {
    if xs == [] then 0 else Sum(xs[..|xs| - 1]) + xs[|xs| - 1]
  }

  /** The exact arithmetic mean. */
  function Mean(xs: seq<int>): real
    requires xs != []
  {
    Sum(xs) as real / |xs| as real
  }

  /** The values of the samples whose key is k, in sample order. */
  function ValuesWithKey<K(==)>(s: seq<Sample>, key: Sample -> K, k: K): seq<int>
  {
    if s == [] then []
    else ValuesWithKey(s[..|s| - 1], key, k) + (if key(s[|s| - 1]) == k then [s[|s| - 1].value] else [])
  }

  /** Adds one sample value to the tally of group k, starting the group if it is new. */
  function AddToTally<K(==)>(acc: map<K, Tally>, k: K, v: int): map<K, Tally>
  {
    var t := if k in acc then acc[k] else Tally(0, 0);
    acc[k := Tally(t.total + v, t.count + 1)]
  }

  /** The left fold of AddToTally over the samples, as the source's reduce does it. */
  function Tallies<K(==)>(s: seq<Sample>, key: Sample -> K): (m: map<K, Tally>)
    ensures forall k :: k in m ==> m[k].count > 0
  {
    if s == [] then map[]
    else AddToTally(Tallies(s[..|s| - 1], key), key(s[|s| - 1]), s[|s| - 1].value)
  }

  /** A group exists exactly for the keys that occur, and holds the sum and the
      number of the values with that key. */
  lemma {:induction false} TalliesSpec<K>(s: seq<Sample>, key: Sample -> K, k: K)
    ensures k in Tallies(s, key) <==> ValuesWithKey(s, key, k) != []
    ensures k in Tallies(s, key) ==>
      Tallies(s, key)[k] == Tally(Sum(ValuesWithKey(s, key, k)), |ValuesWithKey(s, key, k)|)
  {
    if s != [] {
      var init := s[..|s| - 1];
      var last := s[|s| - 1];
      TalliesSpec(init, key, k);
      var prev := ValuesWithKey(init, key, k);
      var xs := ValuesWithKey(s, key, k);
      if key(last) == k {
        assert xs == prev + [last.value];
        assert xs[..|xs| - 1] == prev;
        assert Sum(xs) == Sum(prev) + last.value;
        if k !in Tallies(init, key) {
          assert prev == [];
        }
      } else {
        assert xs == prev;
        assert Tallies(s, key) == Tallies(init, key)[key(last) := Tallies(s, key)[key(last)]];
      }
    }
  }

  lemma {:induction false} ValuesWithKeyPresent<K>(s: seq<Sample>, key: Sample -> K, k: K)
    ensures ValuesWithKey(s, key, k) != [] <==> exists i :: 0 <= i < |s| && key(s[i]) == k
  {
    if s != [] {
      var init := s[..|s| - 1];
      ValuesWithKeyPresent(init, key, k);
      if exists i :: 0 <= i < |s| && key(s[i]) == k {
        var i :| 0 <= i < |s| && key(s[i]) == k;
        if i < |s| - 1 {
          assert key(init[i]) == k;
        }
      }
      if exists i :: 0 <= i < |init| && key(init[i]) == k {
        var i :| 0 <= i < |init| && key(init[i]) == k;
        assert key(s[i]) == k;
      }
    }
  }

  /** One chart series: a label and a value per group. */
  datatype Series<K> = Series(labels: seq<K>, values: seq<real>)

  function Averages<K(==)>(keys: seq<K>, t: map<K, Tally>): (r: seq<real>)
    requires forall i :: 0 <= i < |keys| ==> keys[i] in t && t[keys[i]].count > 0
    ensures |r| == |keys|
  {
    seq(|keys|, i requires 0 <= i < |keys| => t[keys[i]].total as real / t[keys[i]].count as real)
  }

  // ---------------------------------------------------------------- weekly

  /** The days of `days` that have a group, in the order of `days`. */
  function DaysPresent(days: seq<Weekday>, t: map<Weekday, Tally>): (r: seq<Weekday>)
    ensures forall d :: d in r <==> d in days && d in t
  {
    if days == [] then []
    else (if days[0] in t then [days[0]] else []) + DaysPresent(days[1..], t)
  }

  /** Strictly increasing in Monday-to-Sunday order, so also without repeats. */
  predicate InWeekOrder(days: seq<Weekday>)
  {
    forall i, j :: 0 <= i < j < |days| ==> DayNumber(days[i]) < DayNumber(days[j])
  }

  lemma WeekInOrder()
    ensures InWeekOrder(Week)
  {
    forall i, j | 0 <= i < j < |Week| ensures DayNumber(Week[i]) < DayNumber(Week[j]) {
      assert DayNumber(Week[i]) == i && DayNumber(Week[j]) == j;
    }
  }

  lemma {:induction false} DaysPresentOrdered(days: seq<Weekday>, t: map<Weekday, Tally>)
    requires InWeekOrder(days)
    ensures InWeekOrder(DaysPresent(days, t))
  {
    if days != [] {
      var rest := days[1..];
      assert InWeekOrder(rest) by {
        forall i, j | 0 <= i < j < |rest| ensures DayNumber(rest[i]) < DayNumber(rest[j]) {
          assert rest[i] == days[i + 1] && rest[j] == days[j + 1];
        }
      }
      DaysPresentOrdered(rest, t);
      var tail := DaysPresent(rest, t);
      forall j | 0 <= j < |tail| ensures DayNumber(days[0]) < DayNumber(tail[j]) {
        assert tail[j] in rest;
        var m :| 0 <= m < |rest| && rest[m] == tail[j];
        assert rest[m] == days[m + 1];
      }
      var r := DaysPresent(days, t);
      if days[0] in t {
        assert r == [days[0]] + tail;
        forall i, j | 0 <= i < j < |r| ensures DayNumber(r[i]) < DayNumber(r[j]) {
          if i == 0 {
            assert r[j] == tail[j - 1];
          } else {
            assert r[i] == tail[i - 1] && r[j] == tail[j - 1];
          }
        }
      } else {
        assert r == tail;
      }
    }
  }

  /** Group by weekday, average each group, list the days Monday to Sunday and
      leave out the days without samples. */
  function Weekly(s: seq<Sample>): Series<Weekday>
  {
    var t := Tallies(s, WeekdayOf);
    var days := DaysPresent(Week, t);
    Series(days, Averages(days, t))
  }

  /** Every label has samples, and its value is the mean of that label's sample values. */
  predicate MeansOfGroups<K(==)>(s: seq<Sample>, key: Sample -> K, series: Series<K>)
  {
    && |series.labels| == |series.values|
    && forall i :: 0 <= i < |series.labels| ==>
         ValuesWithKey(s, key, series.labels[i]) != []
         && series.values[i] == Mean(ValuesWithKey(s, key, series.labels[i]))
  }

  lemma AveragesAreMeans<K>(s: seq<Sample>, key: Sample -> K, labels: seq<K>)
    requires forall i :: 0 <= i < |labels| ==> labels[i] in Tallies(s, key)
    ensures MeansOfGroups(s, key, Series(labels, Averages(labels, Tallies(s, key))))
  {
    var t := Tallies(s, key);
    var avg := Averages(labels, t);
    forall i | 0 <= i < |labels|
      ensures ValuesWithKey(s, key, labels[i]) != []
      ensures avg[i] == Mean(ValuesWithKey(s, key, labels[i]))
    {
      TalliesSpec(s, key, labels[i]);
    }
  }

  /** A key has a group exactly when some sample has it. */
  lemma InTallies<K>(s: seq<Sample>, key: Sample -> K, k: K)
    ensures k in Tallies(s, key) <==> exists i :: 0 <= i < |s| && key(s[i]) == k
  {
    TalliesSpec(s, key, k);
    ValuesWithKeyPresent(s, key, k);
  }

  lemma WeeklyLabels(s: seq<Sample>, d: Weekday)
    ensures d in Weekly(s).labels <==> exists i :: 0 <= i < |s| && s[i].weekday == d
  {
    InTallies(s, WeekdayOf, d);
    assert d in Week by { assert Week[DayNumber(d)] == d; }
    if exists i :: 0 <= i < |s| && s[i].weekday == d {
      var i :| 0 <= i < |s| && s[i].weekday == d;
      assert WeekdayOf(s[i]) == d;
    }
  }

  /** The weekly series names exactly the weekdays that occur, each once, in
      Monday-to-Sunday order, with the mean of that day's values beside it. */
  lemma WeeklySpec(s: seq<Sample>)
    ensures var w := Weekly(s);
      && MeansOfGroups(s, WeekdayOf, w)
      && (forall d :: d in w.labels <==> exists i :: 0 <= i < |s| && s[i].weekday == d)
      && InWeekOrder(w.labels)
  {
    var w := Weekly(s);
    forall d ensures d in w.labels <==> exists i :: 0 <= i < |s| && s[i].weekday == d {
      WeeklyLabels(s, d);
    }
    WeekInOrder();
    DaysPresentOrdered(Week, Tallies(s, WeekdayOf));
    AveragesAreMeans(s, WeekdayOf, w.labels);
  }

  // ---------------------------------------------------------------- monthly

  /** The keys of the first `n` samples in the order they first occur, as the
      host lists the keys of an object built up one sample at a time. */
  function KeysBefore<K(==,!new)>(s: seq<Sample>, key: Sample -> K, n: nat): (r: seq<K>)
    requires n <= |s|
    ensures |r| <= n
    ensures forall k :: k in r <==> exists i :: 0 <= i < n && key(s[i]) == k
    ensures forall i, j :: 0 <= i < j < |r| ==> r[i] != r[j]
  {
    if n == 0 then []
    else
      var ks := KeysBefore(s, key, n - 1);
      if key(s[n - 1]) in ks then ks else ks + [key(s[n - 1])]
  }

  /** The keys of all the samples, in the order they first occur. */
  function KeysInOrder<K(==,!new)>(s: seq<Sample>, key: Sample -> K): seq<K>
  {
    KeysBefore(s, key, |s|)
  }

  /** Whenever one key is listed before another in `r`, it occurs in `s` before
      any occurrence of the other. */
  ghost predicate FirstSeenOrder<K(!new)>(s: seq<Sample>, key: Sample -> K, r: seq<K>)
  {
    forall a, b, q :: 0 <= a < b < |r| && 0 <= q < |s| && key(s[q]) == r[b] ==>
      exists p :: 0 <= p < q && key(s[p]) == r[a]
  }

  /** The keys come in the order of their first occurrence. */
  lemma KeysInOrderFirstSeen<K(!new)>(s: seq<Sample>, key: Sample -> K)
    ensures FirstSeenOrder(s, key, KeysInOrder(s, key))
  {
    var r := KeysInOrder(s, key);
    forall a, b, q | 0 <= a < b < |r| && 0 <= q < |s| && key(s[q]) == r[b]
      ensures exists p :: 0 <= p < q && key(s[p]) == r[a]
    {
      FirstSeenAt(s, key, |s|, a, b, q);
    }
  }

  /** FirstSeenOrder for one pair of listed keys and one occurrence of the later
      one, among the first `n` samples. */
  lemma {:induction false} FirstSeenAt<K(!new)>(s: seq<Sample>, key: Sample -> K, n: nat, a: nat, b: nat, q: nat)
    requires n <= |s| && a < b < |KeysBefore(s, key, n)| && q < n
    requires key(s[q]) == KeysBefore(s, key, n)[b]
    ensures exists p :: 0 <= p < q && key(s[p]) == KeysBefore(s, key, n)[a]
    decreases n
  {
    var ks := KeysBefore(s, key, n - 1);
    var r := KeysBefore(s, key, n);
    if b < |ks| {
      assert r[a] == ks[a] && r[b] == ks[b];
      var q' := q;
      if q == n - 1 {
        // the last sample's key was already listed, so it occurred earlier
        q' :| 0 <= q' < n - 1 && key(s[q']) == ks[b];
      }
      FirstSeenAt(s, key, n - 1, a, b, q');
    } else {
      FirstSeenAdded(s, key, n, a, b, q);
    }
  }

  /** Case of FirstSeenAt where the later key is the one sample n-1 adds. */
  lemma FirstSeenAdded<K(!new)>(s: seq<Sample>, key: Sample -> K, n: nat, a: nat, b: nat, q: nat)
    requires 0 < n <= |s| && |KeysBefore(s, key, n - 1)| <= b
    requires a < b < |KeysBefore(s, key, n)| && q < n && key(s[q]) == KeysBefore(s, key, n)[b]
    ensures exists p :: 0 <= p < q && key(s[p]) == KeysBefore(s, key, n)[a]
  {
    var ks := KeysBefore(s, key, n - 1);
    var r := KeysBefore(s, key, n);
    assert r == ks + [key(s[n - 1])];
    if q < n - 1 {
      // key(s[q]) is then already listed in ks, which the added key is not
      assert false;
    }
    assert r[a] == ks[a] && ks[a] in ks;
    var p :| 0 <= p < n - 1 && key(s[p]) == ks[a];
  }

  /** Group by month, average each group, order the months chronologically. */
  function Monthly(s: seq<Sample>): Series<MonthKey>
  {
    var t := Tallies(s, MonthOf);
    var months := Sorting.SortBy(KeysInOrder(s, MonthOf), MonthStart);
    assert forall i :: 0 <= i < |months| ==> months[i] in t by {
      Sorting.SortBySortedPermutation(KeysInOrder(s, MonthOf), MonthStart);
      forall i | 0 <= i < |months| ensures months[i] in t {
        assert months[i] in multiset(months);
        assert months[i] in KeysInOrder(s, MonthOf);
        InTallies(s, MonthOf, months[i]);
      }
    }
    Series(months, Averages(months, t))
  }

  lemma MonthlyLabels(s: seq<Sample>)
    ensures var m := Monthly(s);
      && |m.labels| <= |s|
      && (forall k :: k in m.labels <==> exists i :: 0 <= i < |s| && s[i].month == k)
      && (forall i, j :: 0 <= i < j < |m.labels| ==> m.labels[i] != m.labels[j])
      && Sorting.SortedBy(m.labels, MonthStart)
  {
    var m := Monthly(s);
    var keys := KeysInOrder(s, MonthOf);
    Sorting.SortBySortedPermutation(keys, MonthStart);
    Sorting.SortByDistinct(keys, MonthStart);
    assert |m.labels| == |keys| by {
      assert |multiset(m.labels)| == |multiset(keys)|;
    }
    forall k ensures k in m.labels <==> exists i :: 0 <= i < |s| && s[i].month == k {
      assert k in m.labels <==> k in multiset(m.labels);
      assert k in keys <==> k in multiset(keys);
      if k in keys {
        var j :| 0 <= j < |keys| && keys[j] == k;
      }
      if exists i :: 0 <= i < |s| && s[i].month == k {
        var i :| 0 <= i < |s| && s[i].month == k;
        assert MonthOf(s[i]) in keys;
      }
    }
  }

  /** The monthly series names exactly the months that occur, each once, in
      chronological order (so there are no more labels than samples), with the
      mean of that month's values beside it. */
  lemma MonthlySpec(s: seq<Sample>)
    ensures var m := Monthly(s);
      && MeansOfGroups(s, MonthOf, m)
      && |m.labels| <= |s|
      && (forall k :: k in m.labels <==> exists i :: 0 <= i < |s| && s[i].month == k)
      && (forall i, j :: 0 <= i < j < |m.labels| ==> MonthStart(m.labels[i]) < MonthStart(m.labels[j]))
  {
    var m := Monthly(s);
    MonthlyLabels(s);
    forall i, j | 0 <= i < j < |m.labels| ensures MonthStart(m.labels[i]) < MonthStart(m.labels[j]) {
      MonthStartInjective(m.labels[i], m.labels[j]);
    }
    forall i | 0 <= i < |m.labels| ensures m.labels[i] in Tallies(s, MonthOf) {
      InTallies(s, MonthOf, m.labels[i]);
      assert m.labels[i] in m.labels;
      var k :| 0 <= k < |s| && s[k].month == m.labels[i];
      assert MonthOf(s[k]) == m.labels[i];
    }
    AveragesAreMeans(s, MonthOf, m.labels);
  }
}
