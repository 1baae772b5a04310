/** The statistics engine (hooks/use-stats.ts): a pure function of the records,
    the period selector, the optional custom range and the current instant. */
module UseStats {
  import opened SleepTypes
  import Sequences

  const DAY_MS: int := 24 * 60 * 60 * 1000

  /** An inclusive range of instants. */
  datatype Window = Window(start: int, end: int)

  predicate InWindow(t: int, w: Window) {
    w.start <= t <= w.end
  }

  /** Length in days of a period that ends now; `Custom` here is the `default`
      branch of the switch, taken when no custom range is supplied. */
  function PeriodDays(p: StatsPeriod): nat
  {
    match p
    case Last24h => 1
    case Last3d => 3
    case Last7d => 7
    case Last30d => 30
    case Custom => 7
  }

  /** The window a query covers. A custom range is used verbatim only when the
      selector is `Custom` and a range is supplied; every other case ends now. */
  function ResolveWindow(period: StatsPeriod, custom: Option<CustomPeriod>, now: int): (w: Window)
    ensures period.Custom? && custom.Some? ==>
              w.start == custom.value.startDate && w.end == custom.value.endDate
    ensures !(period.Custom? && custom.Some?) ==>
              w.end == now && now - w.start == PeriodDays(period) * DAY_MS && InWindow(now, w)
  {
    if period.Custom? && custom.Some? then Window(custom.value.startDate, custom.value.endDate)
    else Window(now - PeriodDays(period) * DAY_MS, now)
  }

  /** Each fixed selector's window ends now and starts its span of days
      earlier; the custom selector without a range starts seven days earlier. */
  lemma FixedPeriodWindows(custom: Option<CustomPeriod>, now: int)
    ensures ResolveWindow(Last24h, custom, now) == Window(now - DAY_MS, now)
    ensures ResolveWindow(Last3d, custom, now) == Window(now - 3 * DAY_MS, now)
    ensures ResolveWindow(Last7d, custom, now) == Window(now - 7 * DAY_MS, now)
    ensures ResolveWindow(Last30d, custom, now) == Window(now - 30 * DAY_MS, now)
    ensures ResolveWindow(Custom, None, now) == Window(now - 7 * DAY_MS, now)
  {
  }

  /** The filter of a query: the record starts in the window. */
  function StartsIn(w: Window): SleepRecord -> bool
  {
    (r: SleepRecord) => InWindow(r.startTime, w)
  }

  /** The records a query counts. */
  function RecordsIn(records: seq<SleepRecord>, w: Window): seq<SleepRecord>
  {
    Sequences.Filter(records, StartsIn(w))
  }

  function Durations(records: seq<SleepRecord>): seq<int>
  {
    Sequences.Map(records, (r: SleepRecord) => r.durationMinutes)
  }

  /** Sum of the durations of the records that start in the window. */
  function MinutesIn(records: seq<SleepRecord>, w: Window): int
  {
    Sequences.Sum(Durations(RecordsIn(records, w)))
  }

  /** `Math.ceil(a / b)` for a positive divisor. */
  function CeilDiv(a: int, b: int): (c: int)
    requires b > 0
    ensures b * (c - 1) < a <= b * c
  {
    -((-a) / b)
  }

  /** The divisor of the average: whole days from the window's start to now,
      rounded up and at least one. */
  function DayCount(now: int, start: int): (d: nat)
    ensures d >= 1
    ensures DAY_MS * (d - 1) < now - start || d == 1
    ensures now - start <= DAY_MS * d
  {
    var c := CeilDiv(now - start, DAY_MS);
    if c > 1 then c else 1
  }

  /** `Math.round(minutes / 60 * 10)`: the hours as tenths, rounded half up. */
  function TotalTenths(minutes: int): (t: int)
    ensures 6 * t - 3 <= minutes < 6 * t + 3
  {
    (minutes + 3) / 6
  }

  /** `Math.round(minutes / 60 / days * 10)`: the hours per day as tenths, rounded half up. */
  function AverageTenths(minutes: int, days: nat): (t: int)
    requires days >= 1
    ensures 6 * days * t - 3 * days <= minutes < 6 * days * t + 3 * days
  {
    var q := (minutes + 3 * days) / (6 * days);
    assert 6 * days * q <= minutes + 3 * days < 6 * days * q + 6 * days;
    q
  }

  /** `useStats`: the statistics of the records, over the window the period resolves to. */
  function ComputeStats(records: seq<SleepRecord>, period: StatsPeriod,
                        custom: Option<CustomPeriod>, now: int): (s: SleepStats)
    ensures var w := ResolveWindow(period, custom, now);
      && s.recordCount == |RecordsIn(records, w)|
      && (s.recordCount == 0 <==> forall i :: 0 <= i < |records| ==> !InWindow(records[i].startTime, w))
      && (s.recordCount == 0 ==> s == ZeroStats)
      && (s.recordCount > 0 ==>
            && s.minDuration <= s.maxDuration
            && (forall i :: 0 <= i < |records| && InWindow(records[i].startTime, w) ==>
                  s.minDuration <= records[i].durationMinutes <= s.maxDuration)
            && (exists i :: 0 <= i < |records| && InWindow(records[i].startTime, w) &&
                  records[i].durationMinutes == s.maxDuration)
            && (exists i :: 0 <= i < |records| && InWindow(records[i].startTime, w) &&
                  records[i].durationMinutes == s.minDuration)
            && 6 * s.totalTenths - 3 <= MinutesIn(records, w) < 6 * s.totalTenths + 3
            && var d := DayCount(now, w.start);
               6 * d * s.averageTenths - 3 * d <= MinutesIn(records, w) < 6 * d * s.averageTenths + 3 * d)
  {
    StatsOver(records, ResolveWindow(period, custom, now), now)
  }

  /** The filter-and-reduce of `useStats` over a resolved window. The average is
      spread over the days from the window's start to `now`. */
  function StatsOver(records: seq<SleepRecord>, w: Window, now: int): (s: SleepStats)
    ensures
      && s.recordCount == |RecordsIn(records, w)|
      && (s.recordCount == 0 <==> forall i :: 0 <= i < |records| ==> !InWindow(records[i].startTime, w))
      && (s.recordCount == 0 ==> s == ZeroStats)
      && (s.recordCount > 0 ==>
            && s.minDuration <= s.maxDuration
            && (forall i :: 0 <= i < |records| && InWindow(records[i].startTime, w) ==>
                  s.minDuration <= records[i].durationMinutes <= s.maxDuration)
            && (exists i :: 0 <= i < |records| && InWindow(records[i].startTime, w) &&
                  records[i].durationMinutes == s.maxDuration)
            && (exists i :: 0 <= i < |records| && InWindow(records[i].startTime, w) &&
                  records[i].durationMinutes == s.minDuration)
            && 6 * s.totalTenths - 3 <= MinutesIn(records, w) < 6 * s.totalTenths + 3
            && var d := DayCount(now, w.start);
               6 * d * s.averageTenths - 3 * d <= MinutesIn(records, w) < 6 * d * s.averageTenths + 3 * d)
  {
    var kept := RecordsIn(records, w);
    if kept == [] then
      ZeroStatsWhenNoneInWindow(records, w);
      ZeroStats
    else
      var durations := Durations(kept);
      var total := Sequences.Sum(durations);
      var s := SleepStats(TotalTenths(total), AverageTenths(total, DayCount(now, w.start)),
                          |kept|, Sequences.Max(durations), Sequences.Min(durations));
      KeptDurationBounds(records, w, s.minDuration, s.maxDuration);
      s
  }

  lemma ZeroStatsWhenNoneInWindow(records: seq<SleepRecord>, w: Window)
    requires RecordsIn(records, w) == []
    ensures forall i :: 0 <= i < |records| ==> !InWindow(records[i].startTime, w)
  {
    forall i | 0 <= i < |records|
      ensures !InWindow(records[i].startTime, w)
    {
      var x := records[i];
      assert multiset(records)[x] > 0;
    }
  }

  /** The extremes of the kept durations bound, and are reached by, the records
      of the input that start in the window. */
  lemma KeptDurationBounds(records: seq<SleepRecord>, w: Window, lo: int, hi: int)
    requires RecordsIn(records, w) != []
    requires lo == Sequences.Min(Durations(RecordsIn(records, w)))
    requires hi == Sequences.Max(Durations(RecordsIn(records, w)))
    ensures exists i :: 0 <= i < |records| && InWindow(records[i].startTime, w) &&
              records[i].durationMinutes == hi
    ensures exists i :: 0 <= i < |records| && InWindow(records[i].startTime, w) &&
              records[i].durationMinutes == lo
    ensures forall i :: 0 <= i < |records| && InWindow(records[i].startTime, w) ==>
              lo <= records[i].durationMinutes <= hi
  {
    var kept := RecordsIn(records, w);
    var ds := Durations(kept);
    forall i | 0 <= i < |records| && InWindow(records[i].startTime, w)
      ensures lo <= records[i].durationMinutes <= hi
    {
      var x := records[i];
      assert multiset(records)[x] > 0;
      assert x in multiset(kept);
      var j :| 0 <= j < |kept| && kept[j] == x;
      assert ds[j] == x.durationMinutes;
    }
    var jh :| 0 <= jh < |ds| && ds[jh] == hi;
    var jl :| 0 <= jl < |ds| && ds[jl] == lo;
    KeptStartsInWindow(records, w, jh);
    KeptStartsInWindow(records, w, jl);
  }

  /** Each kept record is a record of the input that starts in the window. */
  lemma KeptStartsInWindow(records: seq<SleepRecord>, w: Window, j: int)
    requires 0 <= j < |RecordsIn(records, w)|
    ensures exists i :: 0 <= i < |records| && records[i] == RecordsIn(records, w)[j] &&
              InWindow(records[i].startTime, w)
  {
  }

  /** With no records every period yields all-zero statistics. */
  lemma NoRecordsGiveZeroStats(period: StatsPeriod, custom: Option<CustomPeriod>, now: int)
    ensures ComputeStats([], period, custom, now) == ZeroStats
  {
  }

  /** `Custom` without a range falls back to the last seven days. */
  lemma CustomWithoutRangeIsLastWeek(records: seq<SleepRecord>, custom: Option<CustomPeriod>, now: int)
    ensures ComputeStats(records, Custom, None, now) == ComputeStats(records, Last7d, custom, now)
  {
    assert ResolveWindow(Custom, None, now) == ResolveWindow(Last7d, custom, now);
  }

  /** The fixed periods all end now and nest, so a longer one never counts fewer records. */
  lemma {:induction false} LongerPeriodCountsMore(records: seq<SleepRecord>, shorter: StatsPeriod,
                                                  longer: StatsPeriod, custom: Option<CustomPeriod>, now: int)
    requires !shorter.Custom? && !longer.Custom?
    requires PeriodDays(shorter) <= PeriodDays(longer)
    ensures ComputeStats(records, shorter, custom, now).recordCount
            <= ComputeStats(records, longer, custom, now).recordCount
  {
    var ws := ResolveWindow(shorter, custom, now);
    var wl := ResolveWindow(longer, custom, now);
    assert ws.end == now && wl.end == now;
    assert wl.start <= ws.start by {
      assert PeriodDays(shorter) * DAY_MS <= PeriodDays(longer) * DAY_MS;
    }
    forall r: SleepRecord | StartsIn(ws)(r)
      ensures StartsIn(wl)(r)
    {
    }
    Sequences.FilterWeakerKeepsMore(records, StartsIn(ws), StartsIn(wl));
  }

  /** Putting a record in front of the list (what adding or finishing a session
      does) adds one to the count and its minutes to the total exactly when it
      starts in the window. */
  lemma PrependedRecordStats(r: SleepRecord, records: seq<SleepRecord>,
                              period: StatsPeriod, custom: Option<CustomPeriod>, now: int)
    ensures var w := ResolveWindow(period, custom, now);
      && ComputeStats([r] + records, period, custom, now).recordCount
         == ComputeStats(records, period, custom, now).recordCount + (if InWindow(r.startTime, w) then 1 else 0)
      && MinutesIn([r] + records, w)
         == MinutesIn(records, w) + (if InWindow(r.startTime, w) then r.durationMinutes else 0)
  {
  }

  /** With non-negative durations every figure is non-negative, and the daily
      average never exceeds the total. */
  lemma NonNegativeStats(records: seq<SleepRecord>, period: StatsPeriod, custom: Option<CustomPeriod>, now: int)
    requires forall i :: 0 <= i < |records| ==> records[i].durationMinutes >= 0
    ensures var s := ComputeStats(records, period, custom, now);
      && 0 <= s.averageTenths <= s.totalTenths
      && 0 <= s.minDuration
  {
    var w := ResolveWindow(period, custom, now);
    var kept := RecordsIn(records, w);
    var ds := Durations(kept);
    forall i | 0 <= i < |ds| ensures ds[i] >= 0 {
      KeptStartsInWindow(records, w, i);
    }
    Sequences.SumBounds(ds);
    if kept != [] {
      AverageAtMostTotal(Sequences.Sum(ds), DayCount(now, w.start));
    }
  }

  /** Dividing a non-negative number of minutes over one day or more before
      rounding never gives more tenths than rounding the total. */
  lemma AverageAtMostTotal(minutes: int, days: nat)
    requires minutes >= 0 && days >= 1
    ensures 0 <= AverageTenths(minutes, days) <= TotalTenths(minutes)
  {
    var a := AverageTenths(minutes, days);
    var t := TotalTenths(minutes);
    ScaleByDays(6 * a - 3, days);
    ScaleByDays(6 * a + 3, days);
    assert days * (6 * a - 3) == 6 * days * a - 3 * days;
    assert days * (6 * a + 3) == 6 * days * a + 3 * days;
  }

  lemma ScaleByDays(x: int, days: nat)
    requires days >= 1
    ensures x >= 0 ==> days * x >= x
    ensures x < 0 ==> days * x < 0
  {
  }

  /** Two nights in the last week: 480 and 420 minutes make 15.0 hours. */
  lemma TwoNightsInLastWeek(now: int)
    ensures var records := [SleepRecord("1", now - DAY_MS, now - DAY_MS + 8 * 60 * 60 * 1000, 480),
                            SleepRecord("2", now - 2 * DAY_MS, now - 2 * DAY_MS + 7 * 60 * 60 * 1000, 420)];
      var s := ComputeStats(records, Last7d, None, now);
      s.recordCount == 2 && s.totalTenths == 150 && s.maxDuration == 480 && s.minDuration == 420
  {
    var records := [SleepRecord("1", now - DAY_MS, now - DAY_MS + 8 * 60 * 60 * 1000, 480),
                    SleepRecord("2", now - 2 * DAY_MS, now - 2 * DAY_MS + 7 * 60 * 60 * 1000, 420)];
    var w := ResolveWindow(Last7d, None, now);
    Sequences.FilterAllPass(records, StartsIn(w));
    var ds := Durations(records);
    assert ds == [480, 420];
    assert Sequences.Sum(ds) == 900 by {
      assert ds[1..] == [420];
      assert Sequences.Sum([420]) == 420 by {
        assert [420][1..] == [];
      }
    }
  }

  /** A record that began ten days ago is outside the last week and inside the
      last thirty days; one that began a day ago is inside both. */
  lemma TenDaysAgoOnlyInLastMonth(now: int)
    ensures var records := [SleepRecord("1", now - DAY_MS, now - DAY_MS + 8 * 60 * 60 * 1000, 480),
                            SleepRecord("2", now - 10 * DAY_MS, now - 10 * DAY_MS + 7 * 60 * 60 * 1000, 420)];
      var week := ComputeStats(records, Last7d, None, now);
      var month := ComputeStats(records, Last30d, None, now);
      week.recordCount == 1 && week.totalTenths == 80 && month.recordCount == 2
  {
    var recent := SleepRecord("1", now - DAY_MS, now - DAY_MS + 8 * 60 * 60 * 1000, 480);
    var earlier := SleepRecord("2", now - 10 * DAY_MS, now - 10 * DAY_MS + 7 * 60 * 60 * 1000, 420);
    var records := [recent, earlier];
    var week := ResolveWindow(Last7d, None, now);
    var month := ResolveWindow(Last30d, None, now);
    assert week == Window(now - 7 * DAY_MS, now) && month == Window(now - 30 * DAY_MS, now);
    assert !StartsIn(week)(earlier) && StartsIn(week)(recent);
    Sequences.FilterAllPass(records, StartsIn(month));
    assert records == [recent] + [earlier];
    Sequences.FilterAppend([recent], [earlier], StartsIn(week));
    Sequences.FilterAllPass([recent], StartsIn(week));
    assert RecordsIn([earlier], week) == [] by {
      assert [earlier][1..] == [];
    }
    var ds := Durations([recent]);
    assert ds == [480];
    assert Sequences.Sum(ds) == 480 by {
      assert ds[1..] == [];
    }
  }

  /** One 480-minute night in the last week averages 1.1 hours a day. */
  lemma OneNightAverage(now: int)
    ensures var records := [SleepRecord("1", now - DAY_MS, now - DAY_MS + 8 * 60 * 60 * 1000, 480)];
      var s := ComputeStats(records, Last7d, None, now);
      s.averageTenths == 11 && 10 < s.averageTenths < 20
  {
    var records := [SleepRecord("1", now - DAY_MS, now - DAY_MS + 8 * 60 * 60 * 1000, 480)];
    var w := ResolveWindow(Last7d, None, now);
    Sequences.FilterAllPass(records, StartsIn(w));
    var ds := Durations(records);
    assert ds == [480];
    assert Sequences.Sum(ds) == 480 by {
      assert ds[1..] == [];
    }
    assert DayCount(now, w.start) == 7;
    assert AverageTenths(480, 7) == 11;
  }

  /** The average of a custom range is spread over the days from its start up to
      now, not up to its end: 600 minutes in a five-day range that began ten days
      ago average 1.0 hours a day, not 2.0. */
  lemma CustomAverageCountsDaysToNow(now: int)
    ensures var range := CustomPeriod(now - 10 * DAY_MS, now - 5 * DAY_MS);
      var records := [SleepRecord("1", now - 7 * DAY_MS, now - 7 * DAY_MS + 10 * 60 * 60 * 1000, 600)];
      var s := ComputeStats(records, Custom, Some(range), now);
      s.recordCount == 1 && s.totalTenths == 100 && s.averageTenths == 10
  {
    var range := CustomPeriod(now - 10 * DAY_MS, now - 5 * DAY_MS);
    var records := [SleepRecord("1", now - 7 * DAY_MS, now - 7 * DAY_MS + 10 * 60 * 60 * 1000, 600)];
    var w := ResolveWindow(Custom, Some(range), now);
    Sequences.FilterAllPass(records, StartsIn(w));
    var ds := Durations(records);
    assert ds == [600];
    assert Sequences.Sum(ds) == 600 by {
      assert ds[1..] == [];
    }
    assert DayCount(now, w.start) == 10;
    assert AverageTenths(600, 10) == 10;
  }
}
