/** The forecast aggregation inside `getWeatherForCity` (services/weatherService.ts):
    the 3-hour samples of the forecast list are grouped by local calendar date,
    the first five dates are kept, and each becomes one daily summary, unless
    its weekday label was already emitted. */
module Forecast {
  import opened Wrappers
  import opened Types
  import opened Seqs

  /** One entry of the provider's forecast list: Unix timestamp in seconds,
      temperature, humidity percentage and probability of precipitation (0..1). */
  datatype Sample = Sample(dt: int, temp: real, humidity: int, pop: real)

  /** The runtime's clock and locale, as functions of the timestamp: the local
      `YYYY-MM-DD` string (`getLocalDateString`), the short `en-US` weekday name
      (`toLocaleDateString`) and `getUTCHours`. */
  datatype Calendar = Calendar(localDate: int -> string, weekday: int -> string, utcHour: int -> int)

  /** `uniqueDays.slice(0, 5)`. */
  const MaxDays := 5

  /** The hour from which a sample counts as "noon-ish". */
  const NoonHour := 12

  // ---------------------------------------------------------------------------
  // Grouping by local date

  /** `forecastData.list.map(item => getLocalDateString(item.dt))`. */
  function LocalDates(samples: seq<Sample>, cal: Calendar): (r: seq<string>)
    ensures |r| == |samples|
    ensures forall i :: 0 <= i < |samples| ==> r[i] == cal.localDate(samples[i].dt)
  {
    if samples == [] then [] else [cal.localDate(samples[0].dt)] + LocalDates(samples[1..], cal)
  }

  /** The dates the aggregation visits: the distinct local dates in first-seen order, at most five. */
  function SelectedDates(samples: seq<Sample>, cal: Calendar): (r: seq<string>)
    ensures |r| <= MaxDays
    ensures NoDuplicates(r)
    ensures forall i :: 0 <= i < |r| ==> r[i] in LocalDates(samples, cal)
  {
    var unique := Distinct(LocalDates(samples, cal));
    if |unique| <= MaxDays then unique else unique[..MaxDays]
  }

  /** The selected dates are as many as there are distinct dates, up to five, in the
      order they are first seen, and every date left out is first seen after all the
      kept ones. */
  lemma SelectedDatesSpec(samples: seq<Sample>, cal: Calendar)
    ensures |SelectedDates(samples, cal)| ==
              if |Distinct(LocalDates(samples, cal))| < MaxDays then |Distinct(LocalDates(samples, cal))| else MaxDays
    ensures forall i, j :: 0 <= i < j < |SelectedDates(samples, cal)| ==>
              FirstIndex(LocalDates(samples, cal), SelectedDates(samples, cal)[i])
              < FirstIndex(LocalDates(samples, cal), SelectedDates(samples, cal)[j])
    ensures forall d :: d in LocalDates(samples, cal) && d !in SelectedDates(samples, cal) ==>
              forall i :: 0 <= i < |SelectedDates(samples, cal)| ==>
                FirstIndex(LocalDates(samples, cal), SelectedDates(samples, cal)[i])
                < FirstIndex(LocalDates(samples, cal), d)
  {
    var all := LocalDates(samples, cal);
    var r := SelectedDates(samples, cal);
    assert r == Distinct(all)[..|r|];
    DistinctPrefix(all, |r|);
  }

  /** `forecastData.list.filter(item => getLocalDateString(item.dt) === dateStr)`. */
  function Bucket(samples: seq<Sample>, cal: Calendar, date: string): (b: seq<Sample>)
    ensures forall i :: 0 <= i < |b| ==> cal.localDate(b[i].dt) == date
    ensures forall i :: 0 <= i < |samples| && cal.localDate(samples[i].dt) == date ==> samples[i] in b
  {
    if samples == [] then []
    else if cal.localDate(samples[0].dt) == date then [samples[0]] + Bucket(samples[1..], cal, date)
    else Bucket(samples[1..], cal, date)
  }

  /** The bucket of a list written in two parts is the bucket of the first part followed
      by that of the second: the filter keeps the list order. */
  lemma {:induction false} BucketAppend(a: seq<Sample>, c: seq<Sample>, cal: Calendar, date: string)
    ensures Bucket(a + c, cal, date) == Bucket(a, cal, date) + Bucket(c, cal, date)
  {
    if a == [] {
      assert a + c == c;
    } else {
      assert (a + c)[0] == a[0];
      assert (a + c)[1..] == a[1..] + c;
      BucketAppend(a[1..], c, cal, date);
    }
  }

  /** The first sample of a date's bucket is the first sample of that date in the list. */
  lemma {:induction false} BucketFirst(samples: seq<Sample>, cal: Calendar, date: string)
    requires date in LocalDates(samples, cal)
    ensures |Bucket(samples, cal, date)| > 0
    ensures Bucket(samples, cal, date)[0] == samples[FirstIndex(LocalDates(samples, cal), date)]
  {
    var dates := LocalDates(samples, cal);
    if dates[0] != date {
      assert dates[1..] == LocalDates(samples[1..], cal);
      BucketFirst(samples[1..], cal, date);
    }
  }

  /** A selected date always has at least one sample, so the `dayForecasts.length > 0`
      guard never skips a date. */
  lemma SelectedBucketsNonEmpty(samples: seq<Sample>, cal: Calendar, d: string)
    requires d in SelectedDates(samples, cal)
    ensures |Bucket(samples, cal, d)| > 0
  {
    var unique := Distinct(LocalDates(samples, cal));
    assert d in unique;
    var k :| 0 <= k < |unique| && unique[k] == d;
    var dates := LocalDates(samples, cal);
    var i :| 0 <= i < |dates| && dates[i] == d;
    assert samples[i] in Bucket(samples, cal, d);
  }

  // ---------------------------------------------------------------------------
  // One day's summary

  /** `dayForecasts.find(f => getUTCHours(f.dt) >= 12)`, as an index. */
  function FirstAfternoon(b: seq<Sample>, cal: Calendar): (r: Option<nat>)
    ensures r.Some? ==> r.value < |b| && cal.utcHour(b[r.value].dt) >= NoonHour
    ensures r.Some? ==> forall j :: 0 <= j < r.value ==> cal.utcHour(b[j].dt) < NoonHour
    ensures r.None? <==> forall j :: 0 <= j < |b| ==> cal.utcHour(b[j].dt) < NoonHour
  {
    if b == [] then None
    else if cal.utcHour(b[0].dt) >= NoonHour then Some(0)
    else match FirstAfternoon(b[1..], cal)
      case None => None
      case Some(k) => Some(k + 1)
  }

  /** The sample whose temperature represents the day: the first one at or after
      12:00 UTC, else the middle one. The index is always in range. */
  function NoonIndex(b: seq<Sample>, cal: Calendar): (k: nat)
    requires |b| > 0
    ensures k < |b|
    ensures (exists j :: 0 <= j < |b| && cal.utcHour(b[j].dt) >= NoonHour) ==>
              cal.utcHour(b[k].dt) >= NoonHour && forall j :: 0 <= j < k ==> cal.utcHour(b[j].dt) < NoonHour
    ensures (forall j :: 0 <= j < |b| ==> cal.utcHour(b[j].dt) < NoonHour) ==> k == |b| / 2
  {
    match FirstAfternoon(b, cal)
    case Some(k) => k
    case None => |b| / 2
  }

  function SumHumidity(b: seq<Sample>): int {
    if b == [] then 0 else b[0].humidity + SumHumidity(b[1..])
  }

  /** `reduce((sum, f) => sum + f.main.humidity, 0) / dayForecasts.length`. */
  function MeanHumidity(b: seq<Sample>): real
    requires |b| > 0
  {
    SumHumidity(b) as real / |b| as real
  }

  lemma {:induction false} SumHumidityBounds(b: seq<Sample>, lo: int, hi: int)
    requires forall i :: 0 <= i < |b| ==> lo <= b[i].humidity <= hi
    ensures |b| * lo <= SumHumidity(b) <= |b| * hi
  {
    if b != [] {
      SumHumidityBounds(b[1..], lo, hi);
    }
  }

  lemma DivisionBounds(sum: real, n: real, lo: real, hi: real)
    requires n > 0.0 && n * lo <= sum <= n * hi
    ensures lo <= sum / n <= hi
  {
    var m := sum / n;
    assert m * n == sum;
    assert (m - lo) * n == sum - n * lo;
    assert (hi - m) * n == n * hi - sum;
  }

  /** The rounded mean humidity lies between any bounds of the bucket's humidities,
      in particular between its minimum and its maximum. */
  lemma MeanHumidityWithinBounds(b: seq<Sample>, lo: int, hi: int)
    requires |b| > 0
    requires forall i :: 0 <= i < |b| ==> lo <= b[i].humidity <= hi
    ensures lo <= Round(MeanHumidity(b)) <= hi
  {
    SumHumidityBounds(b, lo, hi);
    DivisionBounds(SumHumidity(b) as real, |b| as real, lo as real, hi as real);
    RoundMonotonic(lo as real, MeanHumidity(b));
    RoundMonotonic(MeanHumidity(b), hi as real);
    RoundOfInteger(lo);
    RoundOfInteger(hi);
  }

  /** `Math.max(...dayForecasts.map(f => f.pop))` on a non-empty bucket. */
  function MaxPop(b: seq<Sample>): (m: real)
    requires |b| > 0
    ensures exists i :: 0 <= i < |b| && b[i].pop == m
    ensures forall i :: 0 <= i < |b| ==> b[i].pop <= m
  {
    if |b| == 1 then b[0].pop
    else
      var rest := MaxPop(b[1..]);
      var i :| 0 <= i < |b| - 1 && b[1..][i].pop == rest;
      assert b[i + 1].pop == rest;
      if b[0].pop >= rest then b[0].pop else rest
  }

  /** The weekday label of a bucket: that of its first sample. */
  function DayLabel(b: seq<Sample>, cal: Calendar): string
    requires |b| > 0
  {
    cal.weekday(b[0].dt)
  }

  /** The summary pushed for one bucket. */
  function Summarize(b: seq<Sample>, cal: Calendar): DailyForecast
    requires |b| > 0
  {
    DailyForecast(DayLabel(b, cal), Round(b[NoonIndex(b, cal)].temp),
                  Round(MeanHumidity(b)), Round(MaxPop(b) * 100.0))
  }

  /** What one daily entry holds: the first sample's weekday label, the rounded
      temperature of the noon-ish sample, a rounded mean humidity within the bucket's
      bounds, and the rounded maximum of `pop * 100`. */
  lemma SummaryFields(b: seq<Sample>, cal: Calendar, lo: int, hi: int)
    requires |b| > 0
    requires forall i :: 0 <= i < |b| ==> lo <= b[i].humidity <= hi
    ensures Summarize(b, cal).day == cal.weekday(b[0].dt)
    ensures Summarize(b, cal).temp == Round(b[NoonIndex(b, cal)].temp)
    ensures lo <= Summarize(b, cal).humidity <= hi
    ensures exists i :: 0 <= i < |b| && Summarize(b, cal).chanceOfRain == Round(b[i].pop * 100.0)
    ensures forall i :: 0 <= i < |b| ==> Round(b[i].pop * 100.0) <= Summarize(b, cal).chanceOfRain
  {
    MeanHumidityWithinBounds(b, lo, hi);
    var m := MaxPop(b);
    var k :| 0 <= k < |b| && b[k].pop == m;
    assert Summarize(b, cal).chanceOfRain == Round(b[k].pop * 100.0);
    forall i | 0 <= i < |b| ensures Round(b[i].pop * 100.0) <= Summarize(b, cal).chanceOfRain {
      RoundMonotonic(b[i].pop * 100.0, m * 100.0);
    }
  }

  /** The summary of the bucket of a date that has samples. */
  function DaySummary(samples: seq<Sample>, cal: Calendar, d: string): DailyForecast
    requires |Bucket(samples, cal, d)| > 0
  {
    Summarize(Bucket(samples, cal, d), cal)
  }

  // ---------------------------------------------------------------------------
  // The whole aggregation

  /** The summaries produced from `dates` when the labels in `seen` were already emitted. */
  function Summaries(samples: seq<Sample>, cal: Calendar, dates: seq<string>, seen: set<string>): seq<DailyForecast>
    decreases |dates|
  {
    if dates == [] then []
    else
      var b := Bucket(samples, cal, dates[0]);
      if |b| == 0 || DayLabel(b, cal) in seen then Summaries(samples, cal, dates[1..], seen)
      else [Summarize(b, cal)] + Summaries(samples, cal, dates[1..], seen + {DayLabel(b, cal)})
  }

  /** Unfolds `Summaries` once. */
  lemma SummariesStep(samples: seq<Sample>, cal: Calendar, dates: seq<string>, seen: set<string>)
    requires dates != []
    ensures var b := Bucket(samples, cal, dates[0]);
      Summaries(samples, cal, dates, seen) ==
        if |b| == 0 || DayLabel(b, cal) in seen then Summaries(samples, cal, dates[1..], seen)
        else [Summarize(b, cal)] + Summaries(samples, cal, dates[1..], seen + {DayLabel(b, cal)})
  {
  }

  /** One iteration of the `forEach` in `AggregateForecast` keeps
      `pushed + Summaries(rest of the dates, seen labels)` unchanged. */
  lemma SummariesLoopStep(samples: seq<Sample>, cal: Calendar, dates: seq<string>, i: nat, seen: set<string>, pushed: seq<DailyForecast>)
    requires i < |dates|
    ensures var b := Bucket(samples, cal, dates[i]);
      if |b| == 0 || DayLabel(b, cal) in seen then
        pushed + Summaries(samples, cal, dates[i + 1..], seen) == pushed + Summaries(samples, cal, dates[i..], seen)
      else
        (pushed + [Summarize(b, cal)]) + Summaries(samples, cal, dates[i + 1..], seen + {DayLabel(b, cal)})
          == pushed + Summaries(samples, cal, dates[i..], seen)
  {
    assert dates[i..][1..] == dates[i + 1..];
    SummariesStep(samples, cal, dates[i..], seen);
  }

  /** The positions in `dates` of the dates that produce a summary (a trace of `Summaries`). */
  function Emitted(samples: seq<Sample>, cal: Calendar, dates: seq<string>, seen: set<string>): seq<nat>
    decreases |dates|
  {
    if dates == [] then []
    else
      var b := Bucket(samples, cal, dates[0]);
      var rest := Emitted(samples, cal, dates[1..], if |b| == 0 || DayLabel(b, cal) in seen then seen else seen + {DayLabel(b, cal)});
      if |b| == 0 || DayLabel(b, cal) in seen then Shift(rest) else [0] + Shift(rest)
  }

  /** What `getWeatherForCity` stores as `forecast`. */
  function Aggregate(samples: seq<Sample>, cal: Calendar): seq<DailyForecast> {
    Summaries(samples, cal, SelectedDates(samples, cal), {})
  }

  /** The loop of `getWeatherForCity` (lines 24-67): a `forEach` over the selected dates
      that pushes to `dailyForecasts` and records labels in `seenDayNames`. */
  method AggregateForecast(samples: seq<Sample>, cal: Calendar) returns (dailyForecasts: seq<DailyForecast>)
    ensures dailyForecasts == Aggregate(samples, cal)
  {
    dailyForecasts := [];
    var seenDayNames: set<string> := {};
    var selected := SelectedDates(samples, cal);
    var i := 0;
    while i < |selected|
      invariant 0 <= i <= |selected|
      invariant dailyForecasts + Summaries(samples, cal, selected[i..], seenDayNames) == Aggregate(samples, cal)
    {
      var dateStr := selected[i];
      var dayForecasts := Bucket(samples, cal, dateStr);
      SummariesLoopStep(samples, cal, selected, i, seenDayNames, dailyForecasts);
      if |dayForecasts| > 0 {
        var dayName := DayLabel(dayForecasts, cal);
        if dayName !in seenDayNames {
          seenDayNames := seenDayNames + {dayName};
          dailyForecasts := dailyForecasts + [Summarize(dayForecasts, cal)];
        }
      }
      i := i + 1;
    }
    assert selected[i..] == [];
  }

  // ---------------------------------------------------------------------------
  // Properties of the aggregation

  lemma {:induction false} SummariesLength(samples: seq<Sample>, cal: Calendar, dates: seq<string>, seen: set<string>)
    ensures |Summaries(samples, cal, dates, seen)| <= |dates|
    decreases |dates|
  {
    if dates != [] {
      var b := Bucket(samples, cal, dates[0]);
      SummariesLength(samples, cal, dates[1..], seen);
      if |b| > 0 {
        SummariesLength(samples, cal, dates[1..], seen + {DayLabel(b, cal)});
      }
    }
  }

  /** At most five daily entries: at most one push per selected date. */
  lemma AggregateAtMostFive(samples: seq<Sample>, cal: Calendar)
    ensures |Aggregate(samples, cal)| <= MaxDays
  {
    SummariesLength(samples, cal, SelectedDates(samples, cal), {});
  }

  lemma {:induction false} SummariesFreshLabels(samples: seq<Sample>, cal: Calendar, dates: seq<string>, seen: set<string>)
    ensures forall i :: 0 <= i < |Summaries(samples, cal, dates, seen)| ==> Summaries(samples, cal, dates, seen)[i].day !in seen
    ensures forall i, j :: 0 <= i < j < |Summaries(samples, cal, dates, seen)| ==>
              Summaries(samples, cal, dates, seen)[i].day != Summaries(samples, cal, dates, seen)[j].day
    decreases |dates|
  {
    if dates != [] {
      var b := Bucket(samples, cal, dates[0]);
      if |b| == 0 || DayLabel(b, cal) in seen {
        SummariesFreshLabels(samples, cal, dates[1..], seen);
      } else {
        SummariesFreshLabels(samples, cal, dates[1..], seen + {DayLabel(b, cal)});
      }
    }
  }

  /** No two daily entries share a weekday label. */
  lemma AggregateDistinctDays(samples: seq<Sample>, cal: Calendar)
    ensures forall i, j :: 0 <= i < j < |Aggregate(samples, cal)| ==>
              Aggregate(samples, cal)[i].day != Aggregate(samples, cal)[j].day
  {
    SummariesFreshLabels(samples, cal, SelectedDates(samples, cal), {});
  }

  lemma {:induction false} SummariesTrace(samples: seq<Sample>, cal: Calendar, dates: seq<string>, seen: set<string>)
    ensures TraceMatches(samples, cal, dates, Emitted(samples, cal, dates, seen), Summaries(samples, cal, dates, seen))
    decreases |dates|
  {
    if dates != [] {
      var b := Bucket(samples, cal, dates[0]);
      var skip := |b| == 0 || DayLabel(b, cal) in seen;
      var seen' := if skip then seen else seen + {DayLabel(b, cal)};
      SummariesTrace(samples, cal, dates[1..], seen');
      SummariesStep(samples, cal, dates, seen);
      var rest, tail := Emitted(samples, cal, dates[1..], seen'), Summaries(samples, cal, dates[1..], seen');
      if skip {
        TraceShiftSkip(samples, cal, dates, rest, tail);
      } else {
        TraceShiftEmit(samples, cal, dates, rest, tail);
      }
    }
  }

  /** `e` lists increasing positions in `dates`, with non-empty buckets, whose summaries are `out`. */
  ghost predicate TraceMatches(samples: seq<Sample>, cal: Calendar, dates: seq<string>, e: seq<nat>, out: seq<DailyForecast>) {
    && |e| == |out|
    && (forall k :: 0 <= k < |e| ==>
          e[k] < |dates| && |Bucket(samples, cal, dates[e[k]])| > 0
          && out[k] == DaySummary(samples, cal, dates[e[k]]))
    && Increasing(e)
  }

  ghost predicate Increasing(e: seq<nat>) {
    forall a, c :: 0 <= a < c < |e| ==> e[a] < e[c]
  }

  /** Position 0 in front of a shifted increasing list keeps it increasing. */
  lemma IncreasingShifted(rest: seq<nat>)
    requires Increasing(rest)
    ensures Increasing(Shift(rest)) && Increasing([0] + Shift(rest))
  {
    var s := Shift(rest);
    var e := [0] + s;
    forall a, c | 0 <= a < c < |e| ensures e[a] < e[c] {
      assert e[c] == s[c - 1];
      if a > 0 {
        assert e[a] == s[a - 1];
      }
    }
  }

  /** Every position of `rest` moved one place on. */
  function Shift(rest: seq<nat>): (r: seq<nat>)
    ensures |r| == |rest|
    ensures forall k :: 0 <= k < |rest| ==> r[k] == rest[k] + 1
  {
    seq(|rest|, k requires 0 <= k < |rest| => rest[k] + 1)
  }

  /** A trace of `dates[1..]` shifted by one is a trace of `dates` with the same output. */
  lemma TraceShiftSkip(samples: seq<Sample>, cal: Calendar, dates: seq<string>, rest: seq<nat>, tail: seq<DailyForecast>)
    requires dates != []
    requires TraceMatches(samples, cal, dates[1..], rest, tail)
    ensures TraceMatches(samples, cal, dates, Shift(rest), tail)
  {
    var e := Shift(rest);
    forall k | 0 <= k < |e|
      ensures e[k] < |dates| && dates[e[k]] == dates[1..][rest[k]]
    {
    }
  }

  /** Prepending position 0 and the summary of the first date's non-empty bucket to a
      shifted trace of `dates[1..]` gives a trace of `dates`. */
  lemma TraceShiftEmit(samples: seq<Sample>, cal: Calendar, dates: seq<string>, rest: seq<nat>, tail: seq<DailyForecast>)
    requires dates != []
    requires TraceMatches(samples, cal, dates[1..], rest, tail)
    requires |Bucket(samples, cal, dates[0])| > 0
    ensures TraceMatches(samples, cal, dates, [0] + Shift(rest), [DaySummary(samples, cal, dates[0])] + tail)
  {
    TraceShiftSkip(samples, cal, dates, rest, tail);
    var s := Shift(rest);
    var e, out := [0] + s, [DaySummary(samples, cal, dates[0])] + tail;
    forall k | 0 <= k < |e|
      ensures e[k] < |dates| && |Bucket(samples, cal, dates[e[k]])| > 0
              && out[k] == DaySummary(samples, cal, dates[e[k]])
    {
      if k > 0 {
        assert e[k] == s[k - 1] == rest[k - 1] + 1;
        assert dates[e[k]] == dates[1..][rest[k - 1]];
        assert out[k] == tail[k - 1];
      }
    }
    IncreasingShifted(rest);
  }

  /** The date each daily entry summarises, in output order. */
  function SourceDates(samples: seq<Sample>, cal: Calendar): (r: seq<string>)
  {
    var dates := SelectedDates(samples, cal);
    var e := Emitted(samples, cal, dates, {});
    seq(|e|, k requires 0 <= k < |e| => if e[k] < |dates| then dates[e[k]] else "")
  }

  /** The source dates are the selected dates at the positions of the trace. */
  lemma SourceDatesTrace(samples: seq<Sample>, cal: Calendar)
    ensures var dates := SelectedDates(samples, cal);
            var e := Emitted(samples, cal, dates, {});
            && TraceMatches(samples, cal, dates, e, Aggregate(samples, cal))
            && |SourceDates(samples, cal)| == |e|
            && forall k :: 0 <= k < |e| ==> SourceDates(samples, cal)[k] == dates[e[k]]
  {
    SummariesTrace(samples, cal, SelectedDates(samples, cal), {});
  }

  /** The source dates as positions in the list of distinct dates, increasing. */
  lemma SourcePositions(samples: seq<Sample>, cal: Calendar)
    ensures var unique := Distinct(LocalDates(samples, cal));
            var e := Emitted(samples, cal, SelectedDates(samples, cal), {});
            && |SourceDates(samples, cal)| == |e| && Increasing(e)
            && forall k :: 0 <= k < |e| ==> e[k] < |unique| && SourceDates(samples, cal)[k] == unique[e[k]]
  {
    SourceDatesTrace(samples, cal);
  }

  /** Entry k is the summary of the non-empty bucket of its source date, a date of the
      forecast list. */
  lemma AggregateSources(samples: seq<Sample>, cal: Calendar)
    ensures |SourceDates(samples, cal)| == |Aggregate(samples, cal)|
    ensures forall k :: 0 <= k < |SourceDates(samples, cal)| ==>
              SourceDates(samples, cal)[k] in SelectedDates(samples, cal)
              && SourceDates(samples, cal)[k] in LocalDates(samples, cal)
              && |Bucket(samples, cal, SourceDates(samples, cal)[k])| > 0
              && Aggregate(samples, cal)[k] == DaySummary(samples, cal, SourceDates(samples, cal)[k])
  {
    SourceDatesTrace(samples, cal);
    var dates := SelectedDates(samples, cal);
    var src := SourceDates(samples, cal);
    forall k | 0 <= k < |src| ensures src[k] in LocalDates(samples, cal) {
      assert src[k] in dates;
      assert src[k] in Distinct(LocalDates(samples, cal));
    }
  }

  /** The source dates appear in the order in which they are first seen in the
      forecast list. */
  lemma AggregateFirstSeenOrder(samples: seq<Sample>, cal: Calendar)
    ensures forall i, j :: 0 <= i < j < |SourceDates(samples, cal)| ==>
              SourceDates(samples, cal)[i] in LocalDates(samples, cal)
              && SourceDates(samples, cal)[j] in LocalDates(samples, cal)
              && FirstIndex(LocalDates(samples, cal), SourceDates(samples, cal)[i])
              < FirstIndex(LocalDates(samples, cal), SourceDates(samples, cal)[j])
  {
    var all := LocalDates(samples, cal);
    var unique := Distinct(all);
    var e := Emitted(samples, cal, SelectedDates(samples, cal), {});
    var src := SourceDates(samples, cal);
    SourcePositions(samples, cal);
    DistinctFirstSeenOrder(all);
    forall i, j | 0 <= i < j < |src|
      ensures src[i] in all && src[j] in all && FirstIndex(all, src[i]) < FirstIndex(all, src[j])
    {
      assert e[i] < e[j];
      assert src[i] == unique[e[i]] && src[j] == unique[e[j]];
    }
  }

  /** The first sample of a date decides the weekday label of its summary. */
  lemma DaySummaryLabel(samples: seq<Sample>, cal: Calendar, d: string)
    requires d in LocalDates(samples, cal)
    ensures |Bucket(samples, cal, d)| > 0
    ensures DaySummary(samples, cal, d).day == cal.weekday(samples[FirstIndex(LocalDates(samples, cal), d)].dt)
  {
    BucketFirst(samples, cal, d);
  }

  /** The label a date's summary would carry, none for a date without samples. */
  function DateLabel(samples: seq<Sample>, cal: Calendar, d: string): Option<string> {
    var b := Bucket(samples, cal, d);
    if |b| > 0 then Some(DayLabel(b, cal)) else None
  }

  /** Position `k` of `dates` produces a summary: it has samples, its label is not in
      `seen`, and no earlier date has the same label. */
  ghost predicate Fresh(samples: seq<Sample>, cal: Calendar, dates: seq<string>, seen: set<string>, k: nat)
    requires k < |dates|
  {
    && DateLabel(samples, cal, dates[k]).Some?
    && DateLabel(samples, cal, dates[k]).value !in seen
    && forall j :: 0 <= j < k ==> DateLabel(samples, cal, dates[j]) != DateLabel(samples, cal, dates[k])
  }

  /** Freshness of position `k > 0` is freshness of `k - 1` in the rest of the dates,
      with the label set the first date leaves behind. */
  lemma FreshStep(samples: seq<Sample>, cal: Calendar, dates: seq<string>, seen: set<string>, k: nat)
    requires 0 < k < |dates|
    ensures var b := Bucket(samples, cal, dates[0]);
            var seen' := if |b| == 0 || DayLabel(b, cal) in seen then seen else seen + {DayLabel(b, cal)};
            Fresh(samples, cal, dates[1..], seen', k - 1) <==> Fresh(samples, cal, dates, seen, k)
  {
    var rest := dates[1..];
    assert rest[k - 1] == dates[k];
    assert forall j :: 0 <= j < k - 1 ==> rest[j] == dates[j + 1];
    var lk := DateLabel(samples, cal, dates[k]);
    if lk.Some? {
      var b := Bucket(samples, cal, dates[0]);
      var seen' := if |b| == 0 || DayLabel(b, cal) in seen then seen else seen + {DayLabel(b, cal)};
      if Fresh(samples, cal, dates, seen, k) {
        forall j | 0 <= j < k - 1 ensures DateLabel(samples, cal, rest[j]) != lk {
          assert DateLabel(samples, cal, dates[j + 1]) != lk;
        }
      }
      if Fresh(samples, cal, rest, seen', k - 1) {
        forall j | 0 <= j < k ensures DateLabel(samples, cal, dates[j]) != lk {
          if j > 0 {
            assert DateLabel(samples, cal, rest[j - 1]) != lk;
          }
        }
      }
    }
  }

  /** A position is emitted exactly when it is fresh. */
  lemma {:induction false} EmittedFresh(samples: seq<Sample>, cal: Calendar, dates: seq<string>, seen: set<string>, k: nat)
    requires k < |dates|
    ensures k in Emitted(samples, cal, dates, seen) <==> Fresh(samples, cal, dates, seen, k)
    decreases |dates|
  {
    var b := Bucket(samples, cal, dates[0]);
    var skip := |b| == 0 || DayLabel(b, cal) in seen;
    var seen' := if skip then seen else seen + {DayLabel(b, cal)};
    var rest := Emitted(samples, cal, dates[1..], seen');
    var s := Shift(rest);
    assert Emitted(samples, cal, dates, seen) == if skip then s else [0] + s;
    if k == 0 {
      assert 0 !in s;
    } else {
      EmittedFresh(samples, cal, dates[1..], seen', k - 1);
      FreshStep(samples, cal, dates, seen, k);
      assert k in s <==> k - 1 in rest by {
        if k in s {
          var i :| 0 <= i < |s| && s[i] == k;
          assert rest[i] == k - 1;
        }
        if k - 1 in rest {
          var i :| 0 <= i < |rest| && rest[i] == k - 1;
          assert s[i] == k;
        }
      }
    }
  }

  /** The source dates sit at the emitted positions of the selected dates. */
  lemma SourceDatesAt(samples: seq<Sample>, cal: Calendar)
    ensures var dates := SelectedDates(samples, cal);
            var e := Emitted(samples, cal, dates, {});
            && |SourceDates(samples, cal)| == |e|
            && forall m :: 0 <= m < |e| ==> e[m] < |dates| && SourceDates(samples, cal)[m] == dates[e[m]]
  {
    SourceDatesTrace(samples, cal);
  }

  /** For a list without duplicates, a value read at listed positions is present iff
      its position is listed. */
  lemma PositionListed<T>(xs: seq<T>, e: seq<nat>, picked: seq<T>, k: nat)
    requires NoDuplicates(xs) && k < |xs|
    requires |picked| == |e|
    requires forall m :: 0 <= m < |e| ==> e[m] < |xs| && picked[m] == xs[e[m]]
    ensures xs[k] in picked <==> k in e
  {
    if xs[k] in picked {
      var m :| 0 <= m < |picked| && picked[m] == xs[k];
      assert xs[e[m]] == xs[k];
    }
    if k in e {
      var m :| 0 <= m < |e| && e[m] == k;
      assert picked[m] == xs[k];
    }
  }

  /** Selected date `k` is summarised iff its label differs from those of all earlier
      selected dates: the `seenDayNames` check drops exactly the repeated labels. */
  lemma AggregateEmitsNewLabels(samples: seq<Sample>, cal: Calendar, k: nat)
    requires k < |SelectedDates(samples, cal)|
    ensures var dates := SelectedDates(samples, cal);
            dates[k] in SourceDates(samples, cal) <==>
              forall j :: 0 <= j < k ==> DateLabel(samples, cal, dates[j]) != DateLabel(samples, cal, dates[k])
  {
    var dates := SelectedDates(samples, cal);
    SourceDatesAt(samples, cal);
    SelectedBucketsNonEmpty(samples, cal, dates[k]);
    EmittedFresh(samples, cal, dates, {}, k);
    PositionListed(dates, Emitted(samples, cal, dates, {}), SourceDates(samples, cal), k);
  }

  /** Each daily entry carries the label of its source date. */
  lemma SourceLabels(samples: seq<Sample>, cal: Calendar)
    ensures |SourceDates(samples, cal)| == |Aggregate(samples, cal)|
    ensures forall m :: 0 <= m < |SourceDates(samples, cal)| ==>
              DateLabel(samples, cal, SourceDates(samples, cal)[m]) == Some(Aggregate(samples, cal)[m].day)
  {
    AggregateSources(samples, cal);
  }

  /** The earliest of the dates up to `k` whose label is that of date `k`. */
  lemma EarliestSameLabel(samples: seq<Sample>, cal: Calendar, dates: seq<string>, k: nat) returns (j: nat)
    requires k < |dates|
    ensures j <= k && DateLabel(samples, cal, dates[j]) == DateLabel(samples, cal, dates[k])
    ensures forall i :: 0 <= i < j ==> DateLabel(samples, cal, dates[i]) != DateLabel(samples, cal, dates[j])
  {
    var labels := seq(|dates|, i requires 0 <= i < |dates| => DateLabel(samples, cal, dates[i]));
    j := FirstIndex(labels, labels[k]);
    assert labels[j] == DateLabel(samples, cal, dates[j]);
    forall i | 0 <= i < j ensures DateLabel(samples, cal, dates[i]) != DateLabel(samples, cal, dates[j]) {
      assert labels[i] != labels[k];
    }
  }

  /** The label of selected date `k` is the label of some daily entry, that of the
      earliest selected date with the same label: no label of the first five dates is lost. */
  lemma AggregateCoversSelectedLabels(samples: seq<Sample>, cal: Calendar, k: nat)
    requires k < |SelectedDates(samples, cal)|
    ensures exists m :: 0 <= m < |Aggregate(samples, cal)|
              && DateLabel(samples, cal, SelectedDates(samples, cal)[k]) == Some(Aggregate(samples, cal)[m].day)
  {
    var dates := SelectedDates(samples, cal);
    var src := SourceDates(samples, cal);
    var j := EarliestSameLabel(samples, cal, dates, k);
    AggregateEmitsNewLabels(samples, cal, j);
    SourceLabels(samples, cal);
    var m :| 0 <= m < |src| && src[m] == dates[j];
    assert DateLabel(samples, cal, src[m]) == Some(Aggregate(samples, cal)[m].day);
  }

  /** A non-empty forecast list gives at least one daily entry. */
  lemma AggregateOfNonEmpty(samples: seq<Sample>, cal: Calendar)
    requires samples != []
    ensures |Aggregate(samples, cal)| > 0
  {
    var all := LocalDates(samples, cal);
    assert all[0] in Distinct(all);
    AggregateCoversSelectedLabels(samples, cal, 0);
  }

  /** An empty forecast list gives an empty forecast, without error. */
  lemma AggregateOfEmpty(cal: Calendar)
    ensures Aggregate([], cal) == []
  {
  }
}
