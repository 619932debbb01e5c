/**
  * The performance store: one bounded time series per metric plus the
  * series of round timestamps, the monitoring flag and the application
  * being watched.
  *
  * A series is a FIFO of at most `maxDataPoints` samples when that bound
  * is positive: a push that makes it longer drops the oldest sample. The
  * store's twelve `<metric>History` arrays are the entries of `history`,
  * keyed by the metric.
  */
module PerformanceStore {
  import opened Util
  import MemoryCollector

  /** What a series holds: a number, a memory breakdown, or null. */
  datatype Sample = Null | Number(n: Num) | Detail(d: MemoryCollector.MemoryDetail)

  const Zero := Number(Fin(0.0))

  datatype Metric =
    | CpuApp | CpuSystem | MemoryTotal | MemoryDetail | BatteryLevel | BatteryTemperature
    | NetworkRx | NetworkTx | Fps | JankCount | GpuUsage | DiskUsage

  const AllMetrics: set<Metric> := {CpuApp, CpuSystem, MemoryTotal, MemoryDetail, BatteryLevel, BatteryTemperature,
                                    NetworkRx, NetworkTx, Fps, JankCount, GpuUsage, DiskUsage}

  lemma AllMetricsComplete(m: Metric)
    ensures m in AllMetrics
  {
  }

  /** The metric's name as addDataPoint receives it. */
  function Name(m: Metric): string
  {
    match m
    case CpuApp => "cpuApp"
    case CpuSystem => "cpuSystem"
    case MemoryTotal => "memoryTotal"
    case MemoryDetail => "memoryDetail"
    case BatteryLevel => "batteryLevel"
    case BatteryTemperature => "batteryTemperature"
    case NetworkRx => "networkRx"
    case NetworkTx => "networkTx"
    case Fps => "fps"
    case JankCount => "jankCount"
    case GpuUsage => "gpuUsage"
    case DiskUsage => "diskUsage"
  }

  /** The switch of addDataPoint: the metric a name selects, if any. */
  function MetricOf(name: string): (r: Option<Metric>)
    ensures r.Some? ==> Name(r.value) == name
  {
    if name == "cpuApp" then Some(CpuApp)
    else if name == "cpuSystem" then Some(CpuSystem)
    else if name == "memoryTotal" then Some(MemoryTotal)
    else if name == "memoryDetail" then Some(MemoryDetail)
    else if name == "batteryLevel" then Some(BatteryLevel)
    else if name == "batteryTemperature" then Some(BatteryTemperature)
    else if name == "networkRx" then Some(NetworkRx)
    else if name == "networkTx" then Some(NetworkTx)
    else if name == "fps" then Some(Fps)
    else if name == "jankCount" then Some(JankCount)
    else if name == "gpuUsage" then Some(GpuUsage)
    else if name == "diskUsage" then Some(DiskUsage)
    else None
  }

  /** Every metric is selected by its own name, so names and metrics
      correspond one to one. */
  lemma MetricOfName(m: Metric)
    ensures MetricOf(Name(m)) == Some(m)
  {
  }

  const TimestampOnly := "timestamp-only"

  lemma TimestampOnlyIsNoMetric()
    ensures MetricOf(TimestampOnly) == None
  {
  }

  /** addToLimitedArray: push v, then drop the oldest element when the
      bound is positive and exceeded. */
  function AddToLimited<T>(a: seq<T>, v: T, maxDataPoints: real): (r: seq<T>)
    ensures |r| == if maxDataPoints > 0.0 && (|a| + 1) as real > maxDataPoints then |a| else |a| + 1
    ensures r == (a + [v])[|a| + 1 - |r|..]
  {
    var pushed := a + [v];
    if maxDataPoints > 0.0 && |pushed| as real > maxDataPoints then pushed[1..] else pushed
  }

  /** The pushed value is the newest element. Only an empty series under a
      bound between 0 and 1 loses it: the push gives one element and the
      shift removes it again. */
  lemma AddToLimitedLast<T>(a: seq<T>, v: T, maxDataPoints: real)
    requires |a| > 0 || maxDataPoints <= 0.0 || maxDataPoints >= 1.0
    ensures var r := AddToLimited(a, v, maxDataPoints); |r| > 0 && r[|r| - 1] == v
  {
    var pushed := a + [v];
    if maxDataPoints > 0.0 && |pushed| as real > maxDataPoints {
      if maxDataPoints >= 1.0 {
        assert |pushed| as real > 1.0;
      }
      assert |pushed| > 1;
      assert pushed[1..][|pushed| - 2] == v;
    } else {
      assert pushed[|pushed| - 1] == v;
    }
  }

  /** Under a bound between 0 and 1 a non-empty series keeps its length and
      gains the pushed value as its newest element, and an empty series
      stays empty. */
  lemma FractionalBound<T>(a: seq<T>, v: T, maxDataPoints: real)
    requires 0.0 < maxDataPoints < 1.0
    ensures |a| > 0 ==> AddToLimited(a, v, maxDataPoints) == a[1..] + [v]
    ensures a == [] ==> AddToLimited(a, v, maxDataPoints) == []
  {
    if |a| > 0 {
      assert (a + [v])[1..] == a[1..] + [v];
    }
  }

  /** With a positive bound, a series within the bound stays within it. */
  lemma AddToLimitedBounded<T>(a: seq<T>, v: T, maxDataPoints: real)
    requires maxDataPoints > 0.0 && |a| as real <= maxDataPoints
    ensures |AddToLimited(a, v, maxDataPoints)| as real <= maxDataPoints
  {
  }

  /** At most the oldest element goes: all others are kept, in order. */
  lemma AddToLimitedKeepsNewest<T>(a: seq<T>, v: T, maxDataPoints: real)
    requires |a| > 0
    ensures AddToLimited(a, v, maxDataPoints) == a + [v] || AddToLimited(a, v, maxDataPoints) == a[1..] + [v]
  {
    assert (a + [v])[1..] == a[1..] + [v];
  }

  /** Without a bound the series only grows, by one element per push. */
  lemma AddToLimitedUnbounded<T>(a: seq<T>, v: T, maxDataPoints: real)
    requires maxDataPoints <= 0.0
    ensures AddToLimited(a, v, maxDataPoints) == a + [v]
  {
  }

  /** Series of the same length stay of the same length. */
  lemma AddToLimitedSameLength<T, U>(a: seq<T>, v: T, b: seq<U>, w: U, maxDataPoints: real)
    requires |a| == |b|
    ensures |AddToLimited(a, v, maxDataPoints)| == |AddToLimited(b, w, maxDataPoints)|
  {
  }

  /** The store's state. */
  datatype StoreState = StoreState(
    history: map<Metric, seq<Sample>>,
    timeStamps: seq<string>,
    isMonitoring: bool,
    currentPackageName: string,
    currentPid: Option<string>,
    maxDataPoints: real)

  predicate HasAllSeries(history: map<Metric, seq<Sample>>)
  {
    forall m: Metric :: m in history
  }

  const NoHistory: map<Metric, seq<Sample>> := map m | m in AllMetrics :: []

  lemma NoHistoryHasAllSeries()
    ensures HasAllSeries(NoHistory)
  {
    forall m: Metric ensures m in NoHistory {
      AllMetricsComplete(m);
    }
  }

  const InitialState := StoreState(NoHistory, [], false, "", None, 300.0)

  /** addDataPoint: the timestamp goes to timeStamps when asked for, and the
      value to the series the metric names, if it names one. */
  function AddPoint(s: StoreState, metric: string, value: Sample, time: string, addTimestamp: bool): (r: StoreState)
    requires HasAllSeries(s.history)
    ensures HasAllSeries(r.history)
  {
    var timeStamps := if addTimestamp then AddToLimited(s.timeStamps, time, s.maxDataPoints) else s.timeStamps;
    if metric == TimestampOnly then s.(timeStamps := timeStamps)
    else match MetricOf(metric)
      case None => s.(timeStamps := timeStamps)
      case Some(m) => s.(timeStamps := timeStamps, history := s.history[m := AddToLimited(s.history[m], value, s.maxDataPoints)])
  }

  /** A known metric receives the value in its own series and no other
      series changes; timeStamps receives the time exactly when asked to;
      nothing else in the store changes. */
  lemma AddPointRoutes(s: StoreState, m: Metric, value: Sample, time: string, addTimestamp: bool)
    requires HasAllSeries(s.history)
    ensures var r := AddPoint(s, Name(m), value, time, addTimestamp);
            && r.history[m] == AddToLimited(s.history[m], value, s.maxDataPoints)
            && (forall k :: k != m ==> r.history[k] == s.history[k])
            && r.timeStamps == (if addTimestamp then AddToLimited(s.timeStamps, time, s.maxDataPoints) else s.timeStamps)
            && r.(history := s.history, timeStamps := s.timeStamps) == s
  {
    MetricOfName(m);
    TimestampOnlyIsNoMetric();
  }

  /** A name that is no metric ("timestamp-only" among them) changes no
      series. */
  lemma AddPointUnknownMetric(s: StoreState, metric: string, value: Sample, time: string, addTimestamp: bool)
    requires HasAllSeries(s.history) && MetricOf(metric).None?
    ensures AddPoint(s, metric, value, time, addTimestamp).history == s.history
  {
  }

  lemma AddPointTimestampOnly(s: StoreState, value: Sample, time: string)
    requires HasAllSeries(s.history)
    ensures AddPoint(s, TimestampOnly, value, time, true) ==
            s.(timeStamps := AddToLimited(s.timeStamps, time, s.maxDataPoints))
  {
  }

  /** What setMaxDataPoints takes: a number that is not negative; None
      stands for an argument that is not a number. */
  predicate AcceptedBound(maxPoints: Option<Num>)
  {
    maxPoints.Some? && maxPoints.value.Fin? && maxPoints.value.v >= 0.0
  }

  /** setMaxDataPoints: an accepted bound replaces the old one, anything
      else changes nothing; existing series are not cut. */
  function SetMax(s: StoreState, maxPoints: Option<Num>): (r: StoreState)
    ensures r.history == s.history && r.timeStamps == s.timeStamps
    ensures AcceptedBound(maxPoints) ==> r == s.(maxDataPoints := maxPoints.value.v)
    ensures !AcceptedBound(maxPoints) ==> r == s
  {
    if AcceptedBound(maxPoints) then s.(maxDataPoints := maxPoints.value.v) else s
  }

  /** The value of latest*: the newest sample, or 0 for an empty series. */
  function Latest(series: seq<Sample>): (r: Sample)
    ensures |series| == 0 ==> r == Zero
    ensures |series| > 0 ==> r == series[|series| - 1]
  {
    if |series| > 0 then series[|series| - 1] else Zero
  }

  /** What was just added is what latest* reports. */
  lemma LatestAfterAdd(s: StoreState, m: Metric, value: Sample, time: string, addTimestamp: bool)
    requires HasAllSeries(s.history)
    requires |s.history[m]| > 0 || s.maxDataPoints <= 0.0 || s.maxDataPoints >= 1.0
    ensures Latest(AddPoint(s, Name(m), value, time, addTimestamp).history[m]) == value
  {
    AddPointRoutes(s, m, value, time, addTimestamp);
    AddToLimitedLast(s.history[m], value, s.maxDataPoints);
  }

  class PerformanceStore {
    var history: map<Metric, seq<Sample>>
    var timeStamps: seq<string>
    var isMonitoring: bool
    var currentPackageName: string
    var currentPid: Option<string>
    var maxDataPoints: real

    predicate Valid()
      reads this
    {
      HasAllSeries(history)
    }

    function State(): StoreState
      reads this
    {
      StoreState(history, timeStamps, isMonitoring, currentPackageName, currentPid, maxDataPoints)
    }

    /** The initial state: every series empty, not monitoring, at most 300
        points. */
    constructor()
      ensures Valid() && State() == InitialState
    {
      history := NoHistory;
      timeStamps := [];
      isMonitoring := false;
      currentPackageName := "";
      currentPid := None;
      maxDataPoints := 300.0;
      NoHistoryHasAllSeries();
    }

    /** setMaxDataPoints. */
    method SetMaxDataPoints(maxPoints: Option<Num>)
      requires Valid()
      modifies this
      ensures Valid() && State() == SetMax(old(State()), maxPoints)
    {
      if AcceptedBound(maxPoints) {
        maxDataPoints := maxPoints.value.v;
      }
    }

    /** addDataPoint; the time arrives already formatted. */
    method AddDataPoint(metric: string, value: Sample, time: string, addTimestamp: bool)
      requires Valid()
      modifies this
      ensures Valid() && State() == AddPoint(old(State()), metric, value, time, addTimestamp)
    {
      if addTimestamp {
        timeStamps := AddToLimited(timeStamps, time, maxDataPoints);
      }
      if metric == TimestampOnly {
        return;
      }
      var m := MetricOf(metric);
      if m.Some? {
        history := history[m.value := AddToLimited(history[m.value], value, maxDataPoints)];
      }
    }

    /** clearHistory: every series and timeStamps emptied. */
    method ClearHistory()
      modifies this
      ensures Valid() && State() == old(State()).(history := NoHistory, timeStamps := [])
    {
      history := NoHistory;
      timeStamps := [];
      NoHistoryHasAllSeries();
    }

    /** setMonitoringStatus. */
    method SetMonitoringStatus(status: bool)
      requires Valid()
      modifies this
      ensures Valid() && State() == old(State()).(isMonitoring := status)
    {
      isMonitoring := status;
    }

    /** setCurrentApp: the application is recorded and the history of the
        previous one dropped. */
    method SetCurrentApp(packageName: string, pid: Option<string>)
      modifies this
      ensures Valid()
      ensures State() == old(State()).(currentPackageName := packageName, currentPid := pid, history := NoHistory, timeStamps := [])
    {
      currentPackageName := packageName;
      currentPid := pid;
      ClearHistory();
    }

    /** latestCpuData. */
    function LatestCpuData(): (r: (Sample, Sample))
      reads this
      requires Valid()
      ensures r.0 == (if |history[CpuApp]| > 0 then history[CpuApp][|history[CpuApp]| - 1] else Zero)
      ensures r.1 == (if |history[CpuSystem]| > 0 then history[CpuSystem][|history[CpuSystem]| - 1] else Zero)
    {
      (Latest(history[CpuApp]), Latest(history[CpuSystem]))
    }

    /** latestMemoryData. */
    function LatestMemoryData(): (r: Sample)
      reads this
      requires Valid()
      ensures r == (if |history[MemoryTotal]| > 0 then history[MemoryTotal][|history[MemoryTotal]| - 1] else Zero)
    {
      Latest(history[MemoryTotal])
    }

    /** latestFpsData. */
    function LatestFpsData(): (r: Sample)
      reads this
      requires Valid()
      ensures r == (if |history[Fps]| > 0 then history[Fps][|history[Fps]| - 1] else Zero)
    {
      Latest(history[Fps])
    }

    /** latestBatteryData. */
    function LatestBatteryData(): (r: (Sample, Sample))
      reads this
      requires Valid()
      ensures r.0 == (if |history[BatteryLevel]| > 0 then history[BatteryLevel][|history[BatteryLevel]| - 1] else Zero)
      ensures r.1 == (if |history[BatteryTemperature]| > 0 then history[BatteryTemperature][|history[BatteryTemperature]| - 1] else Zero)
    {
      (Latest(history[BatteryLevel]), Latest(history[BatteryTemperature]))
    }

    /** latestNetworkData: download then upload. */
    function LatestNetworkData(): (r: (Sample, Sample))
      reads this
      requires Valid()
      ensures r.0 == (if |history[NetworkRx]| > 0 then history[NetworkRx][|history[NetworkRx]| - 1] else Zero)
      ensures r.1 == (if |history[NetworkTx]| > 0 then history[NetworkTx][|history[NetworkTx]| - 1] else Zero)
    {
      (Latest(history[NetworkRx]), Latest(history[NetworkTx]))
    }
  }
}
