/**
  `build_daily_forecast_and_chart` of app.py: the 3-hourly forecast samples are
  grouped by local calendar day (a running min/max temperature, a humidity sum and
  count, and the icon of the sample nearest midday, earliest first on ties); the
  days are then taken in ascending order, the day the forecast calls "today" is
  skipped, and at most five summaries are kept, with chart series parallel to them.

  Timestamps are integer seconds since the epoch; a local day number is
  `(dt + offset) div 86400` and a local hour `((dt + offset) mod 86400) div 3600`.
  Dates stand for the ISO date keys (whose lexicographic order is the calendar
  order); temperatures and humidities are reals, not rounded.
 */
module Forecast {
  import opened Wrappers

  const SecondsPerDay: int := 86400
  const SecondsPerHour: int := 3600
  const Midday: int := 12
  /** The most day summaries returned. */
  const MaxDays: nat := 5

  /** One entry of the forecast's "list": its time and the fields the summary reads. */
  datatype Sample = Sample(dt: int, temp: Option<real>, humidity: Option<real>,
                           icon: Option<string>, description: string)

  function LocalDay(dt: int, offset: int): int {
    (dt + offset) / SecondsPerDay
  }

  function LocalHour(dt: int, offset: int): int {
    ((dt + offset) % SecondsPerDay) / SecondsPerHour
  }

  function UtcDay(dt: int): int {
    dt / SecondsPerDay
  }

  function MiddayDistance(hour: int): nat {
    if hour >= Midday then hour - Midday else Midday - hour
  }

  function DayOf(s: Sample, offset: int): int {
    LocalDay(s.dt, offset)
  }

  /** How far from midday a sample lies, in whole hours. */
  function Distance(s: Sample, offset: int): nat {
    MiddayDistance(LocalHour(s.dt, offset))
  }

  /** The running summary of one local day. */
  datatype DayAcc = DayAcc(tempMin: Option<real>, tempMax: Option<real>,
                           humiditySum: real, humidityCount: nat,
                           icon: Option<string>, description: string, sampleHour: int)

  /** The summary started by a day's first sample. */
  function StartDay(s: Sample, offset: int): DayAcc {
    DayAcc(s.temp, s.temp, s.humidity.GetOr(0.0), if s.humidity.Some? then 1 else 0,
           s.icon, s.description, LocalHour(s.dt, offset))
  }

  function Lower(cur: Option<real>, t: real): Option<real> {
    if cur.None? || t < cur.value then Some(t) else cur
  }

  function Higher(cur: Option<real>, t: real): Option<real> {
    if cur.None? || t > cur.value then Some(t) else cur
  }

  /** A later sample of the same day folded into its summary. */
  function Absorb(acc: DayAcc, s: Sample, offset: int): DayAcc {
    var withTemp :=
      if s.temp.Some? then acc.(tempMin := Lower(acc.tempMin, s.temp.value),
                                tempMax := Higher(acc.tempMax, s.temp.value))
      else acc;
    var withHumidity :=
      if s.humidity.Some? then withTemp.(humiditySum := withTemp.humiditySum + s.humidity.value,
                                         humidityCount := withTemp.humidityCount + 1)
      else withTemp;
    var hour := LocalHour(s.dt, offset);
    if MiddayDistance(hour) < MiddayDistance(withHumidity.sampleHour)
    then withHumidity.(icon := s.icon, description := s.description, sampleHour := hour)
    else withHumidity
  }

  /** The `daily` dict after the grouping loop has read `samples` in order. */
  function Group(samples: seq<Sample>, offset: int): map<int, DayAcc>
    decreases |samples|
  {
    if samples == [] then map[]
    else
      var daily := Group(samples[..|samples| - 1], offset);
      var s := samples[|samples| - 1];
      var d := DayOf(s, offset);
      daily[d := if d in daily then Absorb(daily[d], s, offset) else StartDay(s, offset)]
  }

  /** The local day of each sample, in input order. */
  function Days(samples: seq<Sample>, offset: int): (days: seq<int>)
    ensures |days| == |samples|
    ensures forall i :: 0 <= i < |samples| ==> days[i] == DayOf(samples[i], offset)
  {
    seq(|samples|, i requires 0 <= i < |samples| => DayOf(samples[i], offset))
  }

  /** Sum of the humidities present among the samples of local day `d`. */
  function HumiditySum(samples: seq<Sample>, offset: int, d: int): real
    decreases |samples|
  {
    if samples == [] then 0.0
    else
      var s := samples[|samples| - 1];
      HumiditySum(samples[..|samples| - 1], offset, d)
        + (if DayOf(s, offset) == d && s.humidity.Some? then s.humidity.value else 0.0)
  }

  /** Number of samples of local day `d` that carry a humidity. */
  function HumidityCount(samples: seq<Sample>, offset: int, d: int): nat
    decreases |samples|
  {
    if samples == [] then 0
    else
      var s := samples[|samples| - 1];
      HumidityCount(samples[..|samples| - 1], offset, d)
        + (if DayOf(s, offset) == d && s.humidity.Some? then 1 else 0)
  }

  /** A day has a summary exactly when some sample falls on it. */
  lemma {:induction false} GroupKeys(samples: seq<Sample>, offset: int)
    ensures forall d :: d in Group(samples, offset) <==> d in Days(samples, offset)
    decreases |samples|
  {
    if samples != [] {
      var n := |samples|;
      var pre := samples[..n - 1];
      GroupKeys(pre, offset);
      assert Days(samples, offset) == Days(pre, offset) + [DayOf(samples[n - 1], offset)];
    }
  }

  /** Both temperature bounds of a day are present or both absent, the minimum not above the maximum. */
  ghost predicate BoundsOrdered(acc: DayAcc) {
    && (acc.tempMin.Some? <==> acc.tempMax.Some?)
    && (acc.tempMin.Some? ==> acc.tempMin.value <= acc.tempMax.value)
  }

  /** Every temperature sampled on day `d` lies between the day's bounds. */
  ghost predicate BoundsCover(samples: seq<Sample>, offset: int, d: int, acc: DayAcc) {
    forall i :: 0 <= i < |samples| && DayOf(samples[i], offset) == d && samples[i].temp.Some? ==>
      && acc.tempMin.Some? && acc.tempMax.Some?
      && acc.tempMin.value <= samples[i].temp.value <= acc.tempMax.value
  }

  /** A temperature sampled on day `d` equal to `t`. */
  ghost predicate Sampled(samples: seq<Sample>, offset: int, d: int, t: Option<real>) {
    exists i :: 0 <= i < |samples| && DayOf(samples[i], offset) == d && samples[i].temp == t
  }

  /**
    The temperatures of a day's summary: the minimum and maximum are both present
    or both absent, min <= max, every temperature sampled that day lies between
    them, and each bound is a temperature actually sampled that day.
   */
  lemma {:induction false} GroupTemperatures(samples: seq<Sample>, offset: int, d: int)
    requires d in Group(samples, offset)
    ensures BoundsOrdered(Group(samples, offset)[d])
    ensures BoundsCover(samples, offset, d, Group(samples, offset)[d])
    ensures Group(samples, offset)[d].tempMin.Some? ==> Sampled(samples, offset, d, Group(samples, offset)[d].tempMin)
    ensures Group(samples, offset)[d].tempMax.Some? ==> Sampled(samples, offset, d, Group(samples, offset)[d].tempMax)
    decreases |samples|
  {
    var n := |samples|;
    var pre := samples[..n - 1];
    var s := samples[n - 1];
    var acc := Group(samples, offset)[d];
    GroupKeys(pre, offset);
    if DayOf(s, offset) != d {
      GroupTemperatures(pre, offset, d);
      assert acc == Group(pre, offset)[d];
      SampledExtends(samples, offset, d, acc.tempMin);
      SampledExtends(samples, offset, d, acc.tempMax);
      assert BoundsCover(samples, offset, d, acc) by {
        forall i | 0 <= i < n && DayOf(samples[i], offset) == d && samples[i].temp.Some?
          ensures acc.tempMin.Some? && acc.tempMin.value <= samples[i].temp.value <= acc.tempMax.value
        {
          assert pre[i] == samples[i];
        }
      }
    } else if d !in Group(pre, offset) {
      assert acc == StartDay(s, offset);
      assert BoundsCover(samples, offset, d, acc) by {
        forall i | 0 <= i < n && DayOf(samples[i], offset) == d && samples[i].temp.Some?
          ensures i == n - 1
        {
          // No earlier sample falls on a day the grouping had not seen.
        }
      }
      assert DayOf(samples[n - 1], offset) == d;
    } else {
      var prev := Group(pre, offset)[d];
      GroupTemperatures(pre, offset, d);
      assert acc == Absorb(prev, s, offset);
      assert acc.tempMin == (if s.temp.Some? then Lower(prev.tempMin, s.temp.value) else prev.tempMin);
      assert acc.tempMax == (if s.temp.Some? then Higher(prev.tempMax, s.temp.value) else prev.tempMax);
      SampledExtends(samples, offset, d, prev.tempMin);
      SampledExtends(samples, offset, d, prev.tempMax);
      assert DayOf(samples[n - 1], offset) == d;
      assert BoundsCover(samples, offset, d, acc) by {
        forall i | 0 <= i < n && DayOf(samples[i], offset) == d && samples[i].temp.Some?
          ensures acc.tempMin.Some? && acc.tempMin.value <= samples[i].temp.value <= acc.tempMax.value
        {
          if i < n - 1 {
            assert pre[i] == samples[i];
          }
        }
      }
    }
  }

  /** A temperature sampled among the earlier samples is still sampled once more arrive. */
  lemma SampledExtends(samples: seq<Sample>, offset: int, d: int, t: Option<real>)
    requires |samples| > 0
    requires Sampled(samples[..|samples| - 1], offset, d, t)
    ensures Sampled(samples, offset, d, t)
  {
    var pre := samples[..|samples| - 1];
    var i :| 0 <= i < |pre| && DayOf(pre[i], offset) == d && pre[i].temp == t;
    assert samples[i] == pre[i];
  }

  /**
    The humidity of a day's summary is the sum and the count of the humidities
    sampled that day.
   */
  lemma {:induction false} GroupHumidity(samples: seq<Sample>, offset: int, d: int)
    requires d in Group(samples, offset)
    ensures Group(samples, offset)[d].humiditySum == HumiditySum(samples, offset, d)
    ensures Group(samples, offset)[d].humidityCount == HumidityCount(samples, offset, d)
    decreases |samples|
  {
    var n := |samples|;
    var pre := samples[..n - 1];
    var s := samples[n - 1];
    GroupKeys(pre, offset);
    if DayOf(s, offset) == d && d !in Group(pre, offset) {
      NoSampleNoHumidity(pre, offset, d);
    } else {
      GroupHumidity(pre, offset, d);
    }
  }

  /** A day no sample falls on accumulates no humidity. */
  lemma {:induction false} NoSampleNoHumidity(samples: seq<Sample>, offset: int, d: int)
    requires d !in Days(samples, offset)
    ensures HumiditySum(samples, offset, d) == 0.0
    ensures HumidityCount(samples, offset, d) == 0
    decreases |samples|
  {
    if samples != [] {
      var n := |samples|;
      var pre := samples[..n - 1];
      assert Days(samples, offset) == Days(pre, offset) + [DayOf(samples[n - 1], offset)];
      NoSampleNoHumidity(pre, offset, d);
    }
  }

  /**
    Sample `j` is the one whose icon represents day `d`: it falls on `d`, no sample
    of `d` is nearer midday, and every earlier sample of `d` is strictly farther.
   */
  ghost predicate IsMiddaySample(samples: seq<Sample>, offset: int, d: int, j: int) {
    && 0 <= j < |samples|
    && DayOf(samples[j], offset) == d
    && (forall i :: 0 <= i < |samples| && DayOf(samples[i], offset) == d ==>
          Distance(samples[j], offset) <= Distance(samples[i], offset))
    && (forall i :: 0 <= i < j && DayOf(samples[i], offset) == d ==>
          Distance(samples[j], offset) < Distance(samples[i], offset))
  }

  /** A day's icon and description are those of its sample nearest midday, the earliest on ties. */
  lemma {:induction false} GroupIcon(samples: seq<Sample>, offset: int, d: int) returns (j: int)
    requires d in Group(samples, offset)
    ensures IsMiddaySample(samples, offset, d, j)
    ensures Group(samples, offset)[d].icon == samples[j].icon
    ensures Group(samples, offset)[d].description == samples[j].description
    ensures Group(samples, offset)[d].sampleHour == LocalHour(samples[j].dt, offset)
    decreases |samples|
  {
    var n := |samples|;
    var pre := samples[..n - 1];
    var s := samples[n - 1];
    var acc := Group(samples, offset)[d];
    assert forall i :: 0 <= i < n - 1 ==> pre[i] == samples[i];
    GroupKeys(pre, offset);
    if DayOf(s, offset) != d {
      j := GroupIcon(pre, offset, d);
    } else if d !in Group(pre, offset) {
      forall i | 0 <= i < n - 1 ensures DayOf(samples[i], offset) != d {
        assert Days(pre, offset)[i] == DayOf(samples[i], offset);
      }
      j := n - 1;
    } else {
      var j' := GroupIcon(pre, offset, d);
      var prev := Group(pre, offset)[d];
      assert acc == Absorb(prev, s, offset);
      if Distance(s, offset) < MiddayDistance(prev.sampleHour) {
        j := n - 1;
      } else {
        j := j';
      }
    }
  }

  predicate StrictlyIncreasing(xs: seq<int>) {
    forall i, j :: 0 <= i < j < |xs| ==> xs[i] < xs[j]
  }

  /** Insert `x` into an ascending list of distinct values, keeping it so. */
  function Insert(xs: seq<int>, x: int): (r: seq<int>)
    requires StrictlyIncreasing(xs)
    ensures StrictlyIncreasing(r)
    ensures forall y :: y in r <==> y in xs || y == x
  {
    if xs == [] then [x]
    else if x < xs[0] then [x] + xs
    else if x == xs[0] then xs
    else
      var rest := Insert(xs[1..], x);
      assert forall y :: y in rest ==> xs[0] < y;
      var r := [xs[0]] + rest;
      assert StrictlyIncreasing(r) by {
        forall i, j | 0 <= i < j < |r| ensures r[i] < r[j] {
          assert r[j] == rest[j - 1] && rest[j - 1] in rest;
          if i > 0 {
            assert r[i] == rest[i - 1];
          }
        }
      }
      r
  }

  /** `sorted(...)` of the distinct values of `xs`. */
  function SortDistinct(xs: seq<int>): (r: seq<int>)
    ensures StrictlyIncreasing(r)
    ensures forall y :: y in r <==> y in xs
  {
    if xs == [] then [] else Insert(SortDistinct(xs[..|xs| - 1]), xs[|xs| - 1])
  }

  /** The day keys of the grouping, ascending. */
  function SortedDays(samples: seq<Sample>, offset: int): seq<int> {
    SortDistinct(Days(samples, offset))
  }

  /** The dates left after skipping the one equal to `today`. */
  function Kept(dates: seq<int>, today: Option<int>): seq<int>
    decreases |dates|
  {
    if dates == [] then []
    else
      var d := dates[|dates| - 1];
      Kept(dates[..|dates| - 1], today) + (if today == Some(d) then [] else [d])
  }

  lemma {:induction false} KeptMembers(dates: seq<int>, today: Option<int>)
    ensures forall y :: y in Kept(dates, today) <==> y in dates && today != Some(y)
    decreases |dates|
  {
    if dates != [] {
      KeptMembers(dates[..|dates| - 1], today);
      assert dates == dates[..|dates| - 1] + [dates[|dates| - 1]];
    }
  }

  lemma {:induction false} KeptIncreasing(dates: seq<int>, today: Option<int>)
    requires StrictlyIncreasing(dates)
    ensures StrictlyIncreasing(Kept(dates, today))
    decreases |dates|
  {
    if dates != [] {
      var pre := dates[..|dates| - 1];
      KeptIncreasing(pre, today);
      KeptMembers(pre, today);
      var kept := Kept(pre, today);
      assert forall k :: 0 <= k < |kept| ==> kept[k] in pre;
      assert forall k :: 0 <= k < |kept| ==> kept[k] < dates[|dates| - 1];
    }
  }

  /** Reading a longer prefix only extends the kept dates. */
  lemma {:induction false} KeptPrefix(dates: seq<int>, today: Option<int>, i: nat)
    requires i <= |dates|
    ensures |Kept(dates[..i], today)| <= |Kept(dates, today)|
    ensures Kept(dates, today)[..|Kept(dates[..i], today)|] == Kept(dates[..i], today)
    decreases |dates| - i
  {
    if i < |dates| {
      KeptPrefix(dates, today, i + 1);
      assert dates[..i + 1][..i] == dates[..i];
    } else {
      assert dates[..i] == dates;
    }
  }

  /** One entry of `forecast_daily`; the display label is formatted from `date`. */
  datatype DaySummary = DaySummary(date: int, tempMin: Option<real>, tempMax: Option<real>,
                                   humidityAvg: Option<real>, icon: Option<string>, description: string)

  /**
    The chart series: `labels` holds the dates the labels are formatted from,
    `temperature` each day's maximum and `humidity` its average, absent values as 0.
   */
  datatype Chart = Chart(labels: seq<int>, temperature: seq<real>, humidity: seq<real>)

  function Summarize(date: int, acc: DayAcc): (r: DaySummary)
    ensures r.humidityAvg.Some? <==> acc.humidityCount > 0
    ensures acc.humidityCount > 0 ==> r.humidityAvg.value * (acc.humidityCount as real) == acc.humiditySum
  {
    DaySummary(date, acc.tempMin, acc.tempMax,
               if acc.humidityCount > 0 then Some(acc.humiditySum / acc.humidityCount as real) else None,
               acc.icon, acc.description)
  }

  function SummariesOf(daily: map<int, DayAcc>, dates: seq<int>): seq<DaySummary>
    requires forall d :: d in dates ==> d in daily
  {
    seq(|dates|, k requires 0 <= k < |dates| => Summarize(dates[k], daily[dates[k]]))
  }

  lemma SummariesOfAppend(daily: map<int, DayAcc>, dates: seq<int>, d: int)
    requires forall e :: e in dates ==> e in daily
    requires d in daily
    ensures SummariesOf(daily, dates + [d]) == SummariesOf(daily, dates) + [Summarize(d, daily[d])]
  {
  }

  function Take(xs: seq<int>, n: nat): seq<int> {
    if |xs| <= n then xs else xs[..n]
  }

  /** What the summaries are: the first five kept days in ascending order, summarised. */
  function ForecastSummaries(samples: seq<Sample>, offset: int, today: Option<int>): seq<DaySummary> {
    var daily := Group(samples, offset);
    var dates := Take(Kept(SortedDays(samples, offset), today), MaxDays);
    GroupKeys(samples, offset);
    KeptMembers(SortedDays(samples, offset), today);
    SummariesOf(daily, dates)
  }

  /**
    The summaries promised: at most five, in strictly ascending date order, each
    the summary of a day some sample falls on, never `today`, and no omitted day
    earlier than a returned one: a day left out means five earlier days were shown.
   */
  lemma {:induction false} ForecastSummariesShape(samples: seq<Sample>, offset: int, today: Option<int>)
    ensures var r := ForecastSummaries(samples, offset, today);
            && |r| <= MaxDays
            && (forall k, l :: 0 <= k < l < |r| ==> r[k].date < r[l].date)
            && (forall k :: 0 <= k < |r| ==>
                  && r[k].date in Group(samples, offset)
                  && today != Some(r[k].date)
                  && r[k] == Summarize(r[k].date, Group(samples, offset)[r[k].date]))
            && (forall d ::
                  (d in Group(samples, offset) && today != Some(d) && (forall k :: 0 <= k < |r| ==> r[k].date != d))
                  ==> |r| == MaxDays && forall k :: 0 <= k < |r| ==> r[k].date < d)
  {
    var r := ForecastSummaries(samples, offset, today);
    var dates := Take(Kept(SortedDays(samples, offset), today), MaxDays);
    ShownDates(samples, offset, today);
    assert |r| == |dates|;
    assert forall k :: 0 <= k < |r| ==> r[k].date == dates[k] && dates[k] in dates;
    assert forall k :: 0 <= k < |r| ==> r[k] == Summarize(dates[k], Group(samples, offset)[dates[k]]);
  }

  /** The dates shown: the first five grouped days other than today, ascending. */
  lemma {:induction false} ShownDates(samples: seq<Sample>, offset: int, today: Option<int>)
    ensures var dates := Take(Kept(SortedDays(samples, offset), today), MaxDays);
            && |dates| <= MaxDays
            && StrictlyIncreasing(dates)
            && (forall e :: e in dates ==> e in Group(samples, offset) && today != Some(e))
            && (forall d :: d in Group(samples, offset) && today != Some(d) && d !in dates ==>
                  |dates| == MaxDays && forall k :: 0 <= k < |dates| ==> dates[k] < d)
  {
    var sorted := SortedDays(samples, offset);
    var kept := Kept(sorted, today);
    var dates := Take(kept, MaxDays);
    GroupKeys(samples, offset);
    KeptMembers(sorted, today);
    KeptIncreasing(sorted, today);
    assert forall k :: 0 <= k < |dates| ==> dates[k] == kept[k];
    forall d | d in Group(samples, offset) && today != Some(d) && d !in dates
      ensures |dates| == MaxDays && forall k :: 0 <= k < |dates| ==> dates[k] < d
    {
      assert d in kept;
      var m :| 0 <= m < |kept| && kept[m] == d;
      assert m >= |dates|;
    }
  }

  /**
    The summary loop of `build_daily_forecast_and_chart` for a given "today": walk
    the days in ascending order, skip `today`, stop after the fifth summary; the
    chart series are built alongside.
   */
  method Summarise(daily: map<int, DayAcc>, dates: seq<int>, today: Option<int>)
      returns (summaries: seq<DaySummary>, chart: Chart)
    requires forall e :: e in dates ==> e in daily
    ensures forall e :: e in Take(Kept(dates, today), MaxDays) ==> e in daily
    ensures summaries == SummariesOf(daily, Take(Kept(dates, today), MaxDays))
    ensures |summaries| <= MaxDays
    ensures |chart.labels| == |summaries| && |chart.temperature| == |summaries| && |chart.humidity| == |summaries|
    ensures forall k :: 0 <= k < |summaries| ==>
              && chart.labels[k] == summaries[k].date
              && chart.temperature[k] == summaries[k].tempMax.GetOr(0.0)
              && chart.humidity[k] == summaries[k].humidityAvg.GetOr(0.0)
  {
    summaries := [];
    var labels: seq<int> := [];
    var temps: seq<real> := [];
    var hums: seq<real> := [];
    var i := 0;
    while i < |dates| && |summaries| < MaxDays
      invariant 0 <= i <= |dates|
      invariant KeptWithin(dates, today, i, daily)
      invariant summaries == SummariesOf(daily, Kept(dates[..i], today))
      invariant |summaries| <= MaxDays
      invariant |labels| == |summaries| && |temps| == |summaries| && |hums| == |summaries|
      invariant forall k :: 0 <= k < |summaries| ==>
                  && labels[k] == summaries[k].date
                  && temps[k] == summaries[k].tempMax.GetOr(0.0)
                  && hums[k] == summaries[k].humidityAvg.GetOr(0.0)
    {
      var d := dates[i];
      KeptStep(dates, today, i, daily);
      if today != Some(d) {
        var day := Summarize(d, daily[d]);
        SummariesOfAppend(daily, Kept(dates[..i], today), d);
        summaries := summaries + [day];
        labels := labels + [d];
        temps := temps + [day.tempMax.GetOr(0.0)];
        hums := hums + [day.humidityAvg.GetOr(0.0)];
      }
      i := i + 1;
    }
    chart := Chart(labels, temps, hums);
    TakeAtExit(dates, today, i);
  }

  /**
    `build_daily_forecast_and_chart` for a given "today": group the samples by
    local day, sort the days, and run the summary loop.
   */
  method BuildWithToday(samples: seq<Sample>, offset: int, today: Option<int>)
      returns (summaries: seq<DaySummary>, chart: Chart)
    ensures summaries == ForecastSummaries(samples, offset, today)
    ensures |summaries| <= MaxDays
    ensures |chart.labels| == |summaries| && |chart.temperature| == |summaries| && |chart.humidity| == |summaries|
    ensures forall k :: 0 <= k < |summaries| ==>
              && chart.labels[k] == summaries[k].date
              && chart.temperature[k] == summaries[k].tempMax.GetOr(0.0)
              && chart.humidity[k] == summaries[k].humidityAvg.GetOr(0.0)
  {
    var daily := Group(samples, offset);
    var dates := SortedDays(samples, offset);
    GroupKeys(samples, offset);
    summaries, chart := Summarise(daily, dates, today);
  }

  /** The dates kept from the first `i` all have a summary. */
  ghost predicate KeptWithin(dates: seq<int>, today: Option<int>, i: int, daily: map<int, DayAcc>)
    requires 0 <= i <= |dates|
  {
    forall e :: e in Kept(dates[..i], today) ==> e in daily
  }

  /** One more date read: it is kept unless it is `today`. */
  lemma KeptStep(dates: seq<int>, today: Option<int>, i: int, daily: map<int, DayAcc>)
    requires 0 <= i < |dates|
    requires forall e :: e in dates ==> e in daily
    ensures Kept(dates[..i + 1], today) == Kept(dates[..i], today) + (if today == Some(dates[i]) then [] else [dates[i]])
    ensures KeptWithin(dates, today, i + 1, daily)
  {
    assert dates[..i + 1][..i] == dates[..i];
    KeptMembers(dates[..i + 1], today);
  }

  /** Where the loop stops, the kept dates read so far are the first five kept dates. */
  lemma TakeAtExit(dates: seq<int>, today: Option<int>, i: int)
    requires 0 <= i <= |dates|
    requires |Kept(dates[..i], today)| <= MaxDays
    requires i == |dates| || |Kept(dates[..i], today)| == MaxDays
    ensures Take(Kept(dates, today), MaxDays) == Kept(dates[..i], today)
  {
    KeptPrefix(dates, today, i);
    if i == |dates| {
      assert dates[..i] == dates;
    }
  }

  /** The "today" of the source: the UTC date of the first sample, if any. */
  function UtcToday(samples: seq<Sample>): Option<int> {
    if |samples| > 0 then Some(UtcDay(samples[0].dt)) else None
  }

  /** The "today" the grouping's local dates call for: the local date of the first sample. */
  function LocalToday(samples: seq<Sample>, offset: int): Option<int> {
    if |samples| > 0 then Some(DayOf(samples[0], offset)) else None
  }

  /** `build_daily_forecast_and_chart` as written: it skips the UTC date of the first sample. */
  method BuildDailyForecastAndChart(samples: seq<Sample>, offset: int)
      returns (summaries: seq<DaySummary>, chart: Chart)
    ensures summaries == ForecastSummaries(samples, offset, UtcToday(samples))
    ensures |summaries| <= MaxDays
    ensures |chart.labels| == |summaries| && |chart.temperature| == |summaries| && |chart.humidity| == |summaries|
  {
    summaries, chart := BuildWithToday(samples, offset, UtcToday(samples));
  }

  /** The corrected builder: it skips the local date of the first sample. */
  method BuildDailyForecastAndChartLocal(samples: seq<Sample>, offset: int)
      returns (summaries: seq<DaySummary>, chart: Chart)
    ensures summaries == ForecastSummaries(samples, offset, LocalToday(samples, offset))
    ensures |samples| > 0 && Chronological(samples) ==>
              forall k :: 0 <= k < |summaries| ==> summaries[k].date > DayOf(samples[0], offset)
    ensures |summaries| <= MaxDays
    ensures |chart.labels| == |summaries| && |chart.temperature| == |summaries| && |chart.humidity| == |summaries|
  {
    summaries, chart := BuildWithToday(samples, offset, LocalToday(samples, offset));
    ForecastSummariesShape(samples, offset, LocalToday(samples, offset));
    if |samples| > 0 && Chronological(samples) {
      FirstSampleDayIsEarliest(samples, offset);
    }
  }

  /**
    When the samples are in time order (the forecast lists its 3-hour steps
    chronologically), no sample's local day precedes the first one's.
   */
  lemma {:induction false} FirstSampleDayIsEarliest(samples: seq<Sample>, offset: int)
    requires |samples| > 0 && Chronological(samples)
    ensures forall d :: d in Group(samples, offset) ==> d >= DayOf(samples[0], offset)
  {
    GroupKeys(samples, offset);
    forall d | d in Group(samples, offset)
      ensures d >= DayOf(samples[0], offset)
    {
      var i :| 0 <= i < |samples| && Days(samples, offset)[i] == d;
      DayMonotone(samples[0].dt, samples[i].dt, offset);
    }
  }

  predicate Chronological(samples: seq<Sample>) {
    forall i, j :: 0 <= i < j < |samples| ==> samples[i].dt <= samples[j].dt
  }

  lemma DayMonotone(a: int, b: int, offset: int)
    requires a <= b
    ensures LocalDay(a, offset) <= LocalDay(b, offset)
  {
  }
}

module ForecastFinding {
  import opened Wrappers
  import opened Forecast

  /**
    Two samples for a city at UTC-5, 21:00 local on 14 November 2023 and 03:00
    local on 15 November (02:00 and 08:00 UTC on 15 November).
   */
  const UtcMinusFive: int := -18000
  const EveningSamples: seq<Sample> := [
    Sample(1700013600, Some(10.0), Some(50.0), Some("01n"), "Clear Sky"),
    Sample(1700035200, Some(8.0), Some(60.0), Some("02n"), "Few Clouds")]

  /**
    As written, the day skipped as "today" is the UTC date of the first sample,
    which here is the local tomorrow: the local today (day 19675) is shown and
    tomorrow (day 19676) is dropped. Skipping the local date of the first sample
    shows tomorrow instead.
   */
  lemma {:induction false} UtcTodaySkipsLocalTomorrow()
    ensures DayOf(EveningSamples[0], UtcMinusFive) == 19675
    ensures DayOf(EveningSamples[1], UtcMinusFive) == 19676
    ensures UtcToday(EveningSamples) == Some(19676)
    ensures var r := ForecastSummaries(EveningSamples, UtcMinusFive, UtcToday(EveningSamples));
            |r| == 1 && r[0].date == 19675
    ensures var r := ForecastSummaries(EveningSamples, UtcMinusFive, LocalToday(EveningSamples, UtcMinusFive));
            |r| == 1 && r[0].date == 19676
  {
    var days := Days(EveningSamples, UtcMinusFive);
    assert days == [19675, 19676];
    assert days[..1] == [19675];
    assert SortDistinct(days) == [19675, 19676] by {
      assert SortDistinct(days[..1]) == [19675] by {
        assert days[..1][..0] == [];
      }
      assert Insert([19675], 19676) == [19675] + Insert([], 19676);
    }
    assert Kept([19675, 19676], Some(19676)) == [19675] by {
      assert [19675, 19676][..1] == [19675];
    }
    assert Kept([19675, 19676], Some(19675)) == [19676] by {
      assert [19675, 19676][..1] == [19675];
    }
  }
}
