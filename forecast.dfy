/** The weekly forecast strip (app.py:942-954): forecast samples are grouped by
    calendar date in a dictionary, keeping one sample per date and preferring
    the one taken at noon, and the first seven dates are shown. */
module Forecast {
  import opened Wrappers

  /** One forecast sample. The source derives the date key ('%Y-%m-%d') and the
      hour from the sample's timestamp in the host's local time zone; here both
      are given. The rest of the sample is carried along untouched. */
  datatype Sample<P> = Sample(date: string, hour: int, payload: P)

  /** At most this many days are shown (app.py:954). */
  const MaxDays: nat := 7

  /** The hour whose sample represents its day when there is one (app.py:950). */
  const Noon: int := 12

  /** Some sample of `items` falls on date `d`. */
  predicate HasDate<P>(items: seq<Sample<P>>, d: string)
  {
    exists k | 0 <= k < |items| :: items[k].date == d
  }

  /** The dates of `items`, each once, in the order of their first appearance:
      the key order of a Python dictionary that is keyed by date. */
  function DatesInOrder<P>(items: seq<Sample<P>>): seq<string>
  {
    if items == [] then []
    else
      var ds := DatesInOrder(items[..|items| - 1]);
      if items[|items| - 1].date in ds then ds else ds + [items[|items| - 1].date]
  }

  /** The first sample on date `d`. */
  function FirstWith<P>(items: seq<Sample<P>>, d: string): Sample<P>
    requires HasDate(items, d)
  {
    if items[0].date == d then items[0]
    else
      assert HasDate(items[1..], d) by {
        var k :| 0 <= k < |items| && items[k].date == d;
        assert items[1..][k - 1] == items[k];
      }
      FirstWith(items[1..], d)
  }

  /** The last noon sample on date `d`, if there is one. */
  function LastNoon<P>(items: seq<Sample<P>>, d: string): Option<Sample<P>>
  {
    if items == [] then None
    else if items[|items| - 1].date == d && items[|items| - 1].hour == Noon then Some(items[|items| - 1])
    else LastNoon(items[..|items| - 1], d)
  }

  /** The sample that represents date `d`: its last noon sample when it has
      one, otherwise its first sample. */
  function Pick<P>(items: seq<Sample<P>>, d: string): Sample<P>
    requires HasDate(items, d)
  {
    match LastNoon(items, d)
    case Some(s) => s
    case None => FirstWith(items, d)
  }

  /** What the forecast strip shows: the first seven dates in order of first
      appearance, each with the sample that represents it. */
  function Daily<P>(items: seq<Sample<P>>): seq<(string, Sample<P>)>
  {
    var ds := DatesInOrder(items);
    var n := if |ds| < MaxDays then |ds| else MaxDays;
    seq(n, j requires 0 <= j < n =>
      assert HasDate(items, ds[j]) by { DatesInOrderMembers(items); }
      (ds[j], Pick(items, ds[j])))
  }

  /** The grouping loop of app.py:942-954, on a dictionary (`daily`) and its
      key order (`order`) as Python keeps them: a new date is appended to the
      order, a later noon sample replaces the stored one in place, and any
      other later sample is dropped. The first seven entries are returned. */
  method GroupDaily<P(==)>(items: seq<Sample<P>>) returns (days: seq<(string, Sample<P>)>)
    ensures days == Daily(items)
  {
    var daily: map<string, Sample<P>> := map[];
    var order: seq<string> := [];
    for i := 0 to |items|
      invariant order == DatesInOrder(items[..i])
      invariant forall d :: d in daily <==> d in order
      invariant forall d | d in daily :: HasDate(items[..i], d) && daily[d] == Pick(items[..i], d)
    {
      var item := items[i];
      assert items[..i + 1] == items[..i] + [item];
      ghost var prev := daily;
      DatesInOrderMembers(items[..i]);
      if item.date !in daily {
        daily := daily[item.date := item];
        order := order + [item.date];
      } else if item.hour == Noon {
        daily := daily[item.date := item];
      }
      forall d | d in daily
        ensures HasDate(items[..i + 1], d) && daily[d] == Pick(items[..i + 1], d)
      {
        if d != item.date {
          assert d in prev;
        }
        PickSnoc(items[..i], item, d);
      }
    }
    assert items[..|items|] == items;
    var n := if |order| < MaxDays then |order| else MaxDays;
    days := seq(n, j requires 0 <= j < n => (order[j], daily[order[j]]));
  }

  // ---------------------------------------------------------------------
  // Dates in order of first appearance

  /** Exactly the dates of the samples appear. */
  lemma {:induction false} DatesInOrderMembers<P>(items: seq<Sample<P>>)
    ensures forall d :: d in DatesInOrder(items) <==> HasDate(items, d)
  {
    if items != [] {
      var front := items[..|items| - 1];
      DatesInOrderMembers(front);
      forall d ensures HasDate(items, d) <==> HasDate(front, d) || items[|items| - 1].date == d {
        if HasDate(items, d) && items[|items| - 1].date != d {
          var k :| 0 <= k < |items| && items[k].date == d;
          assert front[k] == items[k];
        }
        if HasDate(front, d) {
          var k :| 0 <= k < |front| && front[k].date == d;
          assert items[k] == front[k];
        }
      }
    }
  }

  /** No date appears twice. */
  lemma {:induction false} DatesInOrderDistinct<P>(items: seq<Sample<P>>)
    ensures forall i, j | 0 <= i < j < |DatesInOrder(items)| :: DatesInOrder(items)[i] != DatesInOrder(items)[j]
  {
    if items != [] {
      DatesInOrderDistinct(items[..|items| - 1]);
    }
  }

  /** A date listed before another first appears earlier: every sample on the
      later-listed date is preceded by a sample on the earlier-listed one. */
  lemma {:induction false} DatesInOrderFirstAppearance<P>(items: seq<Sample<P>>)
    ensures forall i, j, k | 0 <= i < j < |DatesInOrder(items)| && 0 <= k < |items|
              && items[k].date == DatesInOrder(items)[j] :: HasDate(items[..k], DatesInOrder(items)[i])
  {
    if items != [] {
      var n := |items| - 1;
      var front := items[..n];
      var ds := DatesInOrder(items);
      DatesInOrderFirstAppearance(front);
      DatesInOrderMembers(front);
      forall i, j, k | 0 <= i < j < |ds| && 0 <= k < |items| && items[k].date == ds[j]
        ensures HasDate(items[..k], ds[i])
      {
        if k < n {
          assert front[k] == items[k];
          assert front[..k] == items[..k];
          if j == |DatesInOrder(front)| {
            // ds[j] is the newly listed date, which `front` does not hold
            assert HasDate(front, ds[j]);
            assert false;
          }
        } else {
          assert items[..k] == front;
          assert ds[i] in DatesInOrder(front);
        }
      }
    }
  }

  /** The set of dates of the samples. */
  function DateSet<P>(items: seq<Sample<P>>): set<string>
  {
    set k | 0 <= k < |items| :: items[k].date
  }

  /** A sequence without repetitions has as many elements as its set. */
  lemma {:induction false} DistinctCard(ds: seq<string>)
    requires forall i, j | 0 <= i < j < |ds| :: ds[i] != ds[j]
    ensures |set d | d in ds| == |ds|
  {
    if ds != [] {
      var rest := ds[1..];
      DistinctCard(rest);
      assert (set d | d in ds) == (set d | d in rest) + {ds[0]};
      assert ds[0] !in rest;
    }
  }

  /** There are as many dates in order as there are distinct dates. */
  lemma DatesInOrderCount<P>(items: seq<Sample<P>>)
    ensures |DatesInOrder(items)| == |DateSet(items)|
  {
    var ds := DatesInOrder(items);
    DatesInOrderMembers(items);
    DatesInOrderDistinct(items);
    DistinctCard(ds);
    assert (set d | d in ds) == DateSet(items);
  }

  // ---------------------------------------------------------------------
  // The representative of a day

  lemma {:induction false} FirstWithIsFirst<P>(items: seq<Sample<P>>, d: string)
    requires HasDate(items, d)
    ensures exists k | 0 <= k < |items| :: items[k] == FirstWith(items, d)
              && forall k' | 0 <= k' < k :: items[k'].date != d
    ensures FirstWith(items, d).date == d
  {
    if items[0].date != d {
      var k :| 0 <= k < |items| && items[k].date == d;
      assert items[1..][k - 1] == items[k];
      FirstWithIsFirst(items[1..], d);
      var m :| 0 <= m < |items[1..]| && items[1..][m] == FirstWith(items[1..], d)
                && forall k' | 0 <= k' < m :: items[1..][k'].date != d;
      assert items[m + 1] == items[1..][m];
      forall k' | 0 <= k' < m + 1 ensures items[k'].date != d {
        if k' > 0 { assert items[k'] == items[1..][k' - 1]; }
      }
    }
  }

  lemma {:induction false} LastNoonIsLast<P>(items: seq<Sample<P>>, d: string)
    ensures LastNoon(items, d).None? <==>
              forall k | 0 <= k < |items| :: !(items[k].date == d && items[k].hour == Noon)
    ensures LastNoon(items, d).Some? ==>
              exists k | 0 <= k < |items| :: items[k] == LastNoon(items, d).value
                && items[k].date == d && items[k].hour == Noon
                && forall k' | k < k' < |items| :: !(items[k'].date == d && items[k'].hour == Noon)
  {
    if items != [] {
      var n := |items| - 1;
      LastNoonIsLast(items[..n], d);
      assert forall k | 0 <= k < n :: items[..n][k] == items[k];
    }
  }

  /** The representative of a day is a sample of that day taken from the input:
      its last noon sample when it has one, otherwise its first sample. */
  lemma PickRule<P>(items: seq<Sample<P>>, d: string)
    requires HasDate(items, d)
    ensures Pick(items, d) in items && Pick(items, d).date == d
    ensures (exists k | 0 <= k < |items| :: items[k].date == d && items[k].hour == Noon) ==>
              Pick(items, d).hour == Noon
              && exists k | 0 <= k < |items| :: items[k] == Pick(items, d)
                   && forall k' | k < k' < |items| :: !(items[k'].date == d && items[k'].hour == Noon)
    ensures (forall k | 0 <= k < |items| :: !(items[k].date == d && items[k].hour == Noon)) ==>
              exists k | 0 <= k < |items| :: items[k] == Pick(items, d)
                && forall k' | 0 <= k' < k :: items[k'].date != d
  {
    LastNoonIsLast(items, d);
    FirstWithIsFirst(items, d);
  }

  lemma {:induction false} LastNoonWithoutDate<P>(items: seq<Sample<P>>, d: string)
    requires !HasDate(items, d)
    ensures LastNoon(items, d) == None
  {
    if items != [] {
      var n := |items| - 1;
      forall k | 0 <= k < n ensures items[..n][k].date != d {
        assert items[..n][k] == items[k];
      }
      LastNoonWithoutDate(items[..n], d);
    }
  }

  lemma {:induction false} FirstWithSnoc<P>(s: seq<Sample<P>>, x: Sample<P>, d: string)
    requires HasDate(s + [x], d)
    ensures HasDate(s, d) ==> FirstWith(s + [x], d) == FirstWith(s, d)
    ensures !HasDate(s, d) ==> FirstWith(s + [x], d) == x
  {
    if s == [] {
      assert s + [x] == [x];
    } else {
      assert (s + [x])[0] == s[0];
      assert (s + [x])[1..] == s[1..] + [x];
      if s[0].date != d {
        assert HasDate(s[1..] + [x], d) by {
          var k :| 0 <= k < |s + [x]| && (s + [x])[k].date == d;
          assert (s[1..] + [x])[k - 1] == (s + [x])[k];
        }
        assert HasDate(s, d) <==> HasDate(s[1..], d) by {
          if HasDate(s, d) {
            var k :| 0 <= k < |s| && s[k].date == d;
            assert s[1..][k - 1] == s[k];
          }
          if HasDate(s[1..], d) {
            var k :| 0 <= k < |s[1..]| && s[1..][k].date == d;
            assert s[k + 1] == s[1..][k];
          }
        }
        FirstWithSnoc(s[1..], x, d);
      } else {
        assert HasDate(s, d) by { assert s[0].date == d; }
      }
    }
  }

  /** How the representative changes when one more sample arrives: this is
      what each step of the grouping loop does to the dictionary. */
  lemma PickSnoc<P>(s: seq<Sample<P>>, x: Sample<P>, d: string)
    requires HasDate(s, d) || x.date == d
    ensures HasDate(s + [x], d)
    ensures Pick(s + [x], d) ==
      if x.date != d then Pick(s, d)
      else if !HasDate(s, d) then x
      else if x.hour == Noon then x
      else Pick(s, d)
  {
    var t := s + [x];
    assert t[..|s|] == s;
    assert t[|s|] == x;
    if HasDate(s, d) {
      var k :| 0 <= k < |s| && s[k].date == d;
      assert t[k] == s[k];
    }
    FirstWithSnoc(s, x, d);
    if !HasDate(s, d) {
      LastNoonWithoutDate(s, d);
    }
  }

  // ---------------------------------------------------------------------
  // What the strip shows

  /** At most seven days, as many as there are distinct dates up to seven, no
      date twice, dates in order of first appearance (the first seven such
      dates), and each day shown with a sample of that day taken from the
      input. */
  lemma DailyShape<P>(items: seq<Sample<P>>)
    ensures |Daily(items)| == if |DateSet(items)| < MaxDays then |DateSet(items)| else MaxDays
    ensures forall i, j | 0 <= i < j < |Daily(items)| :: Daily(items)[i].0 != Daily(items)[j].0
    ensures forall i | 0 <= i < |Daily(items)| ::
              Daily(items)[i].1 in items && Daily(items)[i].1.date == Daily(items)[i].0
    ensures forall i, j, k | 0 <= i < j < |Daily(items)| && 0 <= k < |items|
              && items[k].date == Daily(items)[j].0 :: HasDate(items[..k], Daily(items)[i].0)
    ensures forall i | 0 <= i < |Daily(items)| :: Daily(items)[i].0 == DatesInOrder(items)[i]
  {
    var ds := DatesInOrder(items);
    DatesInOrderCount(items);
    DatesInOrderDistinct(items);
    DatesInOrderFirstAppearance(items);
    DatesInOrderMembers(items);
    forall i | 0 <= i < |Daily(items)|
      ensures Daily(items)[i].1 in items && Daily(items)[i].1.date == Daily(items)[i].0
    {
      PickRule(items, ds[i]);
    }
  }

  /** Two samples of one date arriving as [09:00, 12:00]: the noon sample is shown. */
  lemma NoonPreferred<P>(d: string, early: P, noon: P)
    ensures Daily([Sample(d, 9, early), Sample(d, Noon, noon)]) == [(d, Sample(d, Noon, noon))]
  {
    var items := [Sample(d, 9, early), Sample(d, Noon, noon)];
    assert items[..1] == [Sample(d, 9, early)];
    assert items[..1][..0] == [];
    assert DatesInOrder(items[..1]) == [d];
    assert DatesInOrder(items) == [d];
    assert HasDate(items, d) by { assert items[1].date == d; }
  }

  // ---------------------------------------------------------------------
  // Grouping is idempotent

  /** The samples a strip shows, without their date keys. */
  function Samples<P>(days: seq<(string, Sample<P>)>): (r: seq<Sample<P>>)
    ensures |r| == |days|
  {
    seq(|days|, i requires 0 <= i < |days| => days[i].1)
  }

  /** Samples on pairwise different dates. */
  predicate DistinctDates<P>(items: seq<Sample<P>>)
  {
    forall i, j | 0 <= i < j < |items| :: items[i].date != items[j].date
  }

  lemma {:induction false} DatesInOrderOfDistinct<P>(items: seq<Sample<P>>)
    requires DistinctDates(items)
    ensures DatesInOrder(items) == seq(|items|, i requires 0 <= i < |items| => items[i].date)
  {
    if items != [] {
      var n := |items| - 1;
      DatesInOrderOfDistinct(items[..n]);
      DatesInOrderMembers(items[..n]);
      forall k | 0 <= k < n ensures items[..n][k].date != items[n].date {
        assert items[..n][k] == items[k];
      }
    }
  }

  lemma PickOfDistinct<P>(items: seq<Sample<P>>, i: nat)
    requires DistinctDates(items) && i < |items|
    ensures HasDate(items, items[i].date)
    ensures Pick(items, items[i].date) == items[i]
  {
    PickRule(items, items[i].date);
    var d := items[i].date;
    var p := Pick(items, d);
    var k :| 0 <= k < |items| && items[k] == p;
    assert k == i;
  }

  /** Grouping the samples that a strip shows gives the same strip again. */
  lemma DailyIdempotent<P>(items: seq<Sample<P>>)
    ensures Daily(Samples(Daily(items))) == Daily(items)
  {
    var days := Daily(items);
    var shown := Samples(days);
    DailyShape(items);
    assert DistinctDates(shown);
    DatesInOrderOfDistinct(shown);
    forall i | 0 <= i < |shown|
      ensures HasDate(shown, shown[i].date) && Pick(shown, shown[i].date) == shown[i]
    {
      PickOfDistinct(shown, i);
    }
  }
}
