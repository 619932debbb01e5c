/**
  * The performance monitor: starts and stops the periodic collection for
  * one application, and in each round feeds one timestamp and one sample
  * per metric into the store, null for a collector that failed, then pads
  * series that fell behind the timestamps.
  *
  * The ticker is not modelled: a round is a call of CollectPerformanceData
  * with the settled results of the six collectors and the round's time,
  * already formatted. "" stands for a null package name or pid.
  */
module PerformanceMonitor {
  import opened Util
  import opened Text
  import opened PerformanceStore
  import CpuCollector
  import MemoryCollector
  import BatteryCollector
  import NetworkCollector
  import FpsCollector

  const MinIntervalTime: real := 500.0

  // ---------------------------------------------------------------------
  // getPid

  function PsCommand(packageName: string): string
  {
    "ps -A | grep " + packageName
  }

  /** A line getPid takes the pid from: it names the package and has a
      second field. */
  predicate PidLine(line: string, packageName: string)
  {
    Contains(line, packageName) && |Fields(line)| >= 2
  }

  /** The second field of the first line that qualifies. */
  function FirstPid(lines: seq<string>, packageName: string): (r: Option<string>)
    ensures r.Some? ==> exists i :: 0 <= i < |lines| && PidLine(lines[i], packageName) && Fields(lines[i])[1] == r.value
    ensures r.None? <==> forall i :: 0 <= i < |lines| ==> !PidLine(lines[i], packageName)
  {
    if lines == [] then None
    else if PidLine(lines[0], packageName) then Some(Fields(lines[0])[1])
    else
      var r := FirstPid(lines[1..], packageName);
      assert forall i :: 1 <= i < |lines| ==> lines[i] == lines[1..][i - 1];
      r
  }

  /** The pid comes from the first qualifying line, whatever follows. */
  lemma {:induction false} FirstPidIsFirst(lines: seq<string>, packageName: string, k: nat)
    requires k < |lines| && PidLine(lines[k], packageName)
    requires forall j :: 0 <= j < k ==> !PidLine(lines[j], packageName)
    ensures FirstPid(lines, packageName) == Some(Fields(lines[k])[1])
  {
    if k > 0 {
      assert lines[1..][k - 1] == lines[k];
      FirstPidIsFirst(lines[1..], packageName, k - 1);
    }
  }

  /** getPid on the output of `ps -A | grep <package>`. */
  function PidOf(result: string, packageName: string): Option<string>
  {
    if result == "" then None else FirstPid(SplitOn(Trim(result), '\n'), packageName)
  }

  /** getPid. */
  method GetPid(packageName: string, exec: string -> string) returns (pid: Option<string>)
    ensures pid == PidOf(exec(PsCommand(packageName)), packageName)
  {
    var result := exec(PsCommand(packageName));
    if result == "" {
      return None;
    }
    var lines := SplitOn(Trim(result), '\n');
    for i := 0 to |lines|
      invariant FirstPid(lines[i..], packageName) == FirstPid(lines, packageName)
    {
      assert lines[i..][1..] == lines[i + 1..];
      if Contains(lines[i], packageName) {
        var parts := Fields(lines[i]);
        if |parts| >= 2 {
          return Some(parts[1]);
        }
      }
    }
    return None;
  }

  /** The pid start uses: the one given, else the one getPid finds. */
  function ResolvedPid(packageName: string, pid: string, exec: string -> string): string
  {
    if pid != "" then pid
    else match PidOf(exec(PsCommand(packageName)), packageName)
      case Some(p) => p
      case None => ""
  }

  // ---------------------------------------------------------------------
  // One round

  /** A settled collector result: a value, or a rejection or falsy value. */
  datatype Outcome<T> = Value(value: T) | Failed

  datatype RoundResults = RoundResults(
    cpu: Outcome<CpuCollector.CpuUsage>,
    memory: Outcome<real>,
    memoryDetail: Outcome<MemoryCollector.MemoryDetail>,
    battery: Outcome<BatteryCollector.Reading>,
    network: Outcome<NetworkCollector.Rates>,
    fps: Outcome<FpsCollector.FpsResult>)

  function Real(x: real): Sample
  {
    Number(Fin(x))
  }

  /** The sample a round adds to each series it feeds, in the order of the
      round; gpuUsage and diskUsage are not fed. */
  function RoundPoints(r: RoundResults): (points: seq<(Metric, Sample)>)
    ensures |points| == 10
  {
    [ (CpuApp, if r.cpu.Value? then Number(r.cpu.value.appCpu) else Null),
      (CpuSystem, if r.cpu.Value? then Number(r.cpu.value.systemCpu) else Null),
      (MemoryTotal, if r.memory.Value? then Real(r.memory.value) else Null),
      (MemoryDetail, if r.memoryDetail.Value? then Detail(r.memoryDetail.value) else Null),
      (BatteryLevel, if r.battery.Value? then Real(r.battery.value.level as real) else Null),
      (BatteryTemperature, if r.battery.Value? then Number(r.battery.value.temperature) else Null),
      (NetworkRx, if r.network.Value? then Real(r.network.value.download) else Null),
      (NetworkTx, if r.network.Value? then Real(r.network.value.upload) else Null),
      (Fps, if r.fps.Value? then Real(r.fps.value.fps as real) else Null),
      (JankCount, if r.fps.Value? then Real(r.fps.value.jank as real) else Null) ]
  }

  /** The two points of each collector's section of a round. */
  function CpuPoints(cpu: Outcome<CpuCollector.CpuUsage>): seq<(Metric, Sample)>
  {
    [ (CpuApp, if cpu.Value? then Number(cpu.value.appCpu) else Null),
      (CpuSystem, if cpu.Value? then Number(cpu.value.systemCpu) else Null) ]
  }

  function MemoryPoints(memory: Outcome<real>, memoryDetail: Outcome<MemoryCollector.MemoryDetail>): seq<(Metric, Sample)>
  {
    [ (MemoryTotal, if memory.Value? then Real(memory.value) else Null),
      (MemoryDetail, if memoryDetail.Value? then Detail(memoryDetail.value) else Null) ]
  }

  function BatteryPoints(battery: Outcome<BatteryCollector.Reading>): seq<(Metric, Sample)>
  {
    [ (BatteryLevel, if battery.Value? then Real(battery.value.level as real) else Null),
      (BatteryTemperature, if battery.Value? then Number(battery.value.temperature) else Null) ]
  }

  function NetworkPoints(network: Outcome<NetworkCollector.Rates>): seq<(Metric, Sample)>
  {
    [ (NetworkRx, if network.Value? then Real(network.value.download) else Null),
      (NetworkTx, if network.Value? then Real(network.value.upload) else Null) ]
  }

  function FpsPoints(fps: Outcome<FpsCollector.FpsResult>): seq<(Metric, Sample)>
  {
    [ (Fps, if fps.Value? then Real(fps.value.fps as real) else Null),
      (JankCount, if fps.Value? then Real(fps.value.jank as real) else Null) ]
  }

  /** A round is its five sections one after the other. */
  lemma RoundPointsSections(r: RoundResults)
    ensures RoundPoints(r) == CpuPoints(r.cpu) + MemoryPoints(r.memory, r.memoryDetail) + BatteryPoints(r.battery)
                              + NetworkPoints(r.network) + FpsPoints(r.fps)
  {
  }

  /** The metrics a round feeds, in order. */
  const FedMetrics: seq<Metric> := [CpuApp, CpuSystem, MemoryTotal, MemoryDetail, BatteryLevel, BatteryTemperature,
                                    NetworkRx, NetworkTx, Fps, JankCount]

  lemma RoundPointsFeedEachOnce(r: RoundResults)
    ensures forall i :: 0 <= i < 10 ==> RoundPoints(r)[i].0 == FedMetrics[i]
  {
  }

  /** addDataPoint of each point, without a timestamp. */
  function Feed(s: StoreState, points: seq<(Metric, Sample)>, time: string): (r: StoreState)
    requires HasAllSeries(s.history)
    ensures HasAllSeries(r.history)
    decreases |points|
  {
    if points == [] then s else Feed(AddPoint(s, Name(points[0].0), points[0].1, time, false), points[1..], time)
  }

  /** Feeding a + b is feeding a, then b. */
  lemma {:induction false} FeedAppend(s: StoreState, a: seq<(Metric, Sample)>, b: seq<(Metric, Sample)>, time: string)
    requires HasAllSeries(s.history)
    ensures Feed(s, a + b, time) == Feed(Feed(s, a, time), b, time)
    decreases |a|
  {
    if a == [] {
      assert a + b == b;
    } else {
      assert (a + b)[0] == a[0];
      assert (a + b)[1..] == a[1..] + b;
      FeedAppend(AddPoint(s, Name(a[0].0), a[0].1, time, false), a[1..], b, time);
    }
  }

  /** Feeding two points is two addDataPoint calls. */
  lemma FeedPair(s: StoreState, p: (Metric, Sample), q: (Metric, Sample), time: string)
    requires HasAllSeries(s.history)
    ensures Feed(s, [p, q], time) == AddPoint(AddPoint(s, Name(p.0), p.1, time, false), Name(q.0), q.1, time, false)
  {
    var s1 := AddPoint(s, Name(p.0), p.1, time, false);
    var s2 := AddPoint(s1, Name(q.0), q.1, time, false);
    assert Feed(s1, [q], time) == Feed(s2, [], time) by {
      assert [q][1..] == [];
    }
    assert Feed(s, [p, q], time) == Feed(s1, [q], time) by {
      assert [p, q][0] == p && [p, q][1..] == [q];
    }
  }

  predicate DistinctMetrics(points: seq<(Metric, Sample)>)
  {
    forall i, j :: 0 <= i < j < |points| ==> points[i].0 != points[j].0
  }

  /** The sample points give for metric m, if any. */
  function SampleFor(points: seq<(Metric, Sample)>, m: Metric): Option<Sample>
  {
    if points == [] then None else if points[0].0 == m then Some(points[0].1) else SampleFor(points[1..], m)
  }

  /** Feeding points with distinct metrics pushes each point onto its own
      series exactly once and leaves every other series, timeStamps and the
      rest of the store as they were. */
  lemma {:induction false} FeedPushesEachOnce(s: StoreState, points: seq<(Metric, Sample)>, time: string)
    requires HasAllSeries(s.history) && DistinctMetrics(points)
    ensures var r := Feed(s, points, time);
            && (forall m :: r.history[m] == match SampleFor(points, m)
                                           case Some(v) => AddToLimited(s.history[m], v, s.maxDataPoints)
                                           case None => s.history[m])
            && r.(history := s.history) == s
    decreases |points|
  {
    if points != [] {
      var s1 := AddPoint(s, Name(points[0].0), points[0].1, time, false);
      AddPointRoutes(s, points[0].0, points[0].1, time, false);
      assert DistinctMetrics(points[1..]) by {
        forall i, j | 0 <= i < j < |points[1..]| ensures points[1..][i].0 != points[1..][j].0 {
          assert points[1..][i] == points[i + 1] && points[1..][j] == points[j + 1];
        }
      }
      FeedPushesEachOnce(s1, points[1..], time);
      NotFedAgain(points, points[0].0);
    }
  }

  lemma {:induction false} NotFedAgain(points: seq<(Metric, Sample)>, m: Metric)
    requires |points| > 0 && DistinctMetrics(points) && points[0].0 == m
    ensures SampleFor(points[1..], m).None?
  {
    SampleForAbsent(points[1..], m);
    forall i | 0 <= i < |points[1..]| ensures points[1..][i].0 != m {
      assert points[1..][i] == points[i + 1];
    }
  }

  lemma {:induction false} SampleForAbsent(points: seq<(Metric, Sample)>, m: Metric)
    ensures (forall i :: 0 <= i < |points| ==> points[i].0 != m) ==> SampleFor(points, m).None?
    decreases |points|
  {
    if points != [] {
      SampleForAbsent(points[1..], m);
      assert forall i :: 0 <= i < |points[1..]| ==> points[1..][i] == points[i + 1];
    }
  }

  /** What a round does to the store before the alignment check: one
      timestamp, then one sample per fed metric. */
  function RoundStep(s: StoreState, r: RoundResults, time: string): (t: StoreState)
    requires HasAllSeries(s.history)
    ensures HasAllSeries(t.history)
  {
    Feed(AddPoint(s, TimestampOnly, Null, time, true), RoundPoints(r), time)
  }

  /** A round adds exactly one timestamp and exactly one sample to each fed
      series, the collector's value or null; gpuUsage and diskUsage and
      everything else in the store are left alone. */
  lemma RoundAddsOnePerSeries(s: StoreState, r: RoundResults, time: string)
    requires HasAllSeries(s.history)
    ensures var t := RoundStep(s, r, time);
            && t.timeStamps == AddToLimited(s.timeStamps, time, s.maxDataPoints)
            && (forall i :: 0 <= i < 10 ==>
                  t.history[FedMetrics[i]] == AddToLimited(s.history[FedMetrics[i]], RoundPoints(r)[i].1, s.maxDataPoints))
            && t.history[GpuUsage] == s.history[GpuUsage] && t.history[DiskUsage] == s.history[DiskUsage]
            && t.(history := s.history, timeStamps := s.timeStamps) == s
  {
    AddPointTimestampOnly(s, Null, time);
    RoundPointsFeedEachOnce(r);
    FeedFedMetrics(AddPoint(s, TimestampOnly, Null, time, true), RoundPoints(r), time);
  }

  /** Feeding one point per fed metric, in order. */
  lemma FeedFedMetrics(s: StoreState, points: seq<(Metric, Sample)>, time: string)
    requires HasAllSeries(s.history)
    requires |points| == 10 && forall i :: 0 <= i < 10 ==> points[i].0 == FedMetrics[i]
    ensures var t := Feed(s, points, time);
            && (forall i :: 0 <= i < 10 ==>
                  t.history[FedMetrics[i]] == AddToLimited(s.history[FedMetrics[i]], points[i].1, s.maxDataPoints))
            && t.history[GpuUsage] == s.history[GpuUsage] && t.history[DiskUsage] == s.history[DiskUsage]
            && t.(history := s.history) == s
  {
    FedMetricsDistinct();
    assert DistinctMetrics(points);
    FeedAt(s, points, time);
    assert forall i :: 0 <= i < 10 ==> points[i].0 in FedMetrics;
    FeedSkipsUnfed(s, points, time);
  }

  lemma FeedSkipsUnfed(s: StoreState, points: seq<(Metric, Sample)>, time: string)
    requires HasAllSeries(s.history) && DistinctMetrics(points)
    requires forall i :: 0 <= i < |points| ==> points[i].0 in FedMetrics
    ensures Feed(s, points, time).history[GpuUsage] == s.history[GpuUsage]
    ensures Feed(s, points, time).history[DiskUsage] == s.history[DiskUsage]
  {
    assert GpuUsage !in FedMetrics && DiskUsage !in FedMetrics;
    FeedUntouched(s, points, time, GpuUsage);
    FeedUntouched(s, points, time, DiskUsage);
  }

  lemma FedMetricsDistinct()
    ensures forall i, j :: 0 <= i < j < |FedMetrics| ==> FedMetrics[i] != FedMetrics[j]
  {
  }

  /** Feeding points with distinct metrics, point by point. */
  lemma FeedAt(s: StoreState, points: seq<(Metric, Sample)>, time: string)
    requires HasAllSeries(s.history) && DistinctMetrics(points)
    ensures var t := Feed(s, points, time);
            && (forall i :: 0 <= i < |points| ==>
                  t.history[points[i].0] == AddToLimited(s.history[points[i].0], points[i].1, s.maxDataPoints))
            && t.(history := s.history) == s
  {
    FeedPushesEachOnce(s, points, time);
    forall i | 0 <= i < |points| ensures SampleFor(points, points[i].0) == Some(points[i].1) {
      SampleForAt(points, i);
    }
  }

  /** A series no point names is left alone. */
  lemma FeedUntouched(s: StoreState, points: seq<(Metric, Sample)>, time: string, m: Metric)
    requires HasAllSeries(s.history) && DistinctMetrics(points)
    requires forall i :: 0 <= i < |points| ==> points[i].0 != m
    ensures Feed(s, points, time).history[m] == s.history[m]
  {
    FeedPushesEachOnce(s, points, time);
    SampleForAbsent(points, m);
  }

  lemma {:induction false} SampleForAt(points: seq<(Metric, Sample)>, i: nat)
    requires i < |points| && DistinctMetrics(points)
    ensures SampleFor(points, points[i].0) == Some(points[i].1)
    decreases i
  {
    if i > 0 {
      assert points[1..][i - 1] == points[i];
      assert DistinctMetrics(points[1..]) by {
        forall a, b | 0 <= a < b < |points[1..]| ensures points[1..][a].0 != points[1..][b].0 {
          assert points[1..][a] == points[a + 1] && points[1..][b] == points[b + 1];
        }
      }
      SampleForAt(points[1..], i - 1);
    }
  }

  // ---------------------------------------------------------------------
  // checkDataAlignment

  /** The series checkDataAlignment looks at (memoryDetail, gpuUsage and
      diskUsage are not among them). */
  const CheckedMetrics: seq<Metric> := [CpuApp, CpuSystem, MemoryTotal, BatteryLevel, BatteryTemperature,
                                        NetworkRx, NetworkTx, Fps, JankCount]

  function Nulls(n: nat): (r: seq<Sample>)
    ensures |r| == n && forall i :: 0 <= i < n ==> r[i] == Null
  {
    if n == 0 then [] else Nulls(n - 1) + [Null]
  }

  /** One series padded with nulls up to length n. */
  function Pad(h: map<Metric, seq<Sample>>, k: Metric, n: nat): (r: map<Metric, seq<Sample>>)
    requires HasAllSeries(h)
    ensures HasAllSeries(r)
  {
    if |h[k]| < n then h[k := h[k] + Nulls(n - |h[k]|)] else h
  }

  /** The series of keys padded one after the other. */
  function PadAll(h: map<Metric, seq<Sample>>, keys: seq<Metric>, n: nat): (r: map<Metric, seq<Sample>>)
    requires HasAllSeries(h)
    ensures HasAllSeries(r)
    decreases |keys|
  {
    if keys == [] then h else Pad(PadAll(h, keys[..|keys| - 1], n), keys[|keys| - 1], n)
  }

  /** Padding leaves each listed series that was shorter than n at length
      n, its old samples followed by nulls, and every other series as it
      was. */
  lemma {:induction false} PadAllPads(h: map<Metric, seq<Sample>>, keys: seq<Metric>, n: nat)
    requires HasAllSeries(h)
    ensures forall k :: PadAll(h, keys, n)[k] ==
              if k in keys && |h[k]| < n then h[k] + Nulls(n - |h[k]|) else h[k]
    decreases |keys|
  {
    if keys != [] {
      var init := keys[..|keys| - 1];
      PadAllPads(h, init, n);
      assert forall k :: k in keys <==> k in init || k == keys[|keys| - 1];
    }
  }

  /** When every listed series is already as long as n, padding changes
      nothing. */
  lemma NothingToPad(h: map<Metric, seq<Sample>>, keys: seq<Metric>, n: nat)
    requires HasAllSeries(h)
    requires forall i :: 0 <= i < |keys| ==> |h[keys[i]]| >= n
    ensures PadAll(h, keys, n) == h
  {
    PadAllPads(h, keys, n);
    assert forall k :: k in PadAll(h, keys, n) <==> k in h;
  }

  /** The inner loop of checkDataAlignment: diff nulls pushed one by one
      onto a series. */
  method PadWithNulls(series: seq<Sample>, diff: nat) returns (padded: seq<Sample>)
    ensures padded == series + Nulls(diff)
  {
    padded := series;
    assert series + Nulls(0) == series;
    for j := 0 to diff
      invariant padded == series + Nulls(j)
    {
      assert series + Nulls(j + 1) == series + Nulls(j) + [Null];
      padded := padded + [Null];
    }
  }

  /** Padding one more key of a list pads the series of that key in what
      padding the keys before it gave. */
  lemma PadAllStep(h: map<Metric, seq<Sample>>, keys: seq<Metric>, i: nat, n: nat)
    requires HasAllSeries(h) && i < |keys|
    ensures PadAll(h, keys[..i + 1], n) == Pad(PadAll(h, keys[..i], n), keys[i], n)
  {
    assert keys[..i + 1][..i] == keys[..i];
  }

  /** The loop of checkDataAlignment over the checked series: each one
      shorter than n is padded with nulls up to n. */
  method PadToLength(h: map<Metric, seq<Sample>>, keys: seq<Metric>, n: nat) returns (history: map<Metric, seq<Sample>>)
    requires HasAllSeries(h)
    ensures history == PadAll(h, keys, n)
  {
    history := h;
    for i := 0 to |keys|
      invariant HasAllSeries(history)
      invariant history == PadAll(h, keys[..i], n)
    {
      PadAllStep(h, keys, i, n);
      var key := keys[i];
      var series := history[key];
      var length := |series|;
      if length < n {
        series := PadWithNulls(series, n - length);
        history := history[key := series];
      }
    }
    assert keys[..|keys|] == keys;
  }

  /** The store after checkDataAlignment. */
  function Aligned(s: StoreState): (t: StoreState)
    requires HasAllSeries(s.history)
    ensures HasAllSeries(t.history)
  {
    s.(history := PadAll(s.history, CheckedMetrics, |s.timeStamps|))
  }

  /** A round keeps series aligned: if the fed series were as long as
      timeStamps before the round, they are after it, and the alignment
      check then changes nothing. */
  lemma RoundKeepsAlignment(s: StoreState, r: RoundResults, time: string)
    requires HasAllSeries(s.history)
    requires forall i :: 0 <= i < 10 ==> |s.history[FedMetrics[i]]| == |s.timeStamps|
    ensures var t := RoundStep(s, r, time);
            && (forall i :: 0 <= i < 10 ==> |t.history[FedMetrics[i]]| == |t.timeStamps|)
            && Aligned(t) == t
  {
    var t := RoundStep(s, r, time);
    RoundAddsOnePerSeries(s, r, time);
    forall i | 0 <= i < 10 ensures |t.history[FedMetrics[i]]| == |t.timeStamps| {
      AddToLimitedSameLength(s.history[FedMetrics[i]], RoundPoints(r)[i].1, s.timeStamps, time, s.maxDataPoints);
    }
    assert forall i :: 0 <= i < |CheckedMetrics| ==> CheckedMetrics[i] in FedMetrics;
    forall i | 0 <= i < |CheckedMetrics| ensures |t.history[CheckedMetrics[i]]| >= |t.timeStamps| {
      var j :| 0 <= j < 10 && FedMetrics[j] == CheckedMetrics[i];
    }
    NothingToPad(t.history, CheckedMetrics, |t.timeStamps|);
  }

  // ---------------------------------------------------------------------
  // The monitor

  /** The monitor's own fields; monitorInterval says whether a ticker is
      registered. */
  datatype MonitorState = MonitorState(
    monitorInterval: bool,
    intervalTime: real,
    isRunning: bool,
    packageName: string,
    pid: string,
    dataPointCount: nat)

  const InitialMonitor := MonitorState(false, 1000.0, false, "", "", 0)

  /** The CPU section of a round: cpuApp and cpuSystem, or two nulls. */
  method AddCpuPoints(store: PerformanceStore, cpu: Outcome<CpuCollector.CpuUsage>, time: string)
    requires store.Valid()
    modifies store
    ensures store.Valid() && store.State() == Feed(old(store.State()), CpuPoints(cpu), time)
  {
    ghost var s0 := store.State();
    if cpu.Value? {
      store.AddDataPoint(Name(CpuApp), Number(cpu.value.appCpu), time, false);
      store.AddDataPoint(Name(CpuSystem), Number(cpu.value.systemCpu), time, false);
      FeedPair(s0, (CpuApp, Number(cpu.value.appCpu)), (CpuSystem, Number(cpu.value.systemCpu)), time);
    } else {
      store.AddDataPoint(Name(CpuApp), Null, time, false);
      store.AddDataPoint(Name(CpuSystem), Null, time, false);
      FeedPair(s0, (CpuApp, Null), (CpuSystem, Null), time);
    }
  }

  /** The memory section of a round: memoryTotal and memoryDetail, each a
      null when its collector failed. */
  method AddMemoryPoints(store: PerformanceStore, memory: Outcome<real>, memoryDetail: Outcome<MemoryCollector.MemoryDetail>, time: string)
    requires store.Valid()
    modifies store
    ensures store.Valid() && store.State() == Feed(old(store.State()), MemoryPoints(memory, memoryDetail), time)
  {
    FeedPair(store.State(), MemoryPoints(memory, memoryDetail)[0], MemoryPoints(memory, memoryDetail)[1], time);
    if memory.Value? {
      store.AddDataPoint(Name(MemoryTotal), Real(memory.value), time, false);
    } else {
      store.AddDataPoint(Name(MemoryTotal), Null, time, false);
    }
    if memoryDetail.Value? {
      store.AddDataPoint(Name(MemoryDetail), Detail(memoryDetail.value), time, false);
    } else {
      store.AddDataPoint(Name(MemoryDetail), Null, time, false);
    }
  }

  /** The battery section of a round: batteryLevel and batteryTemperature,
      or two nulls. */
  method AddBatteryPoints(store: PerformanceStore, battery: Outcome<BatteryCollector.Reading>, time: string)
    requires store.Valid()
    modifies store
    ensures store.Valid() && store.State() == Feed(old(store.State()), BatteryPoints(battery), time)
  {
    ghost var s0 := store.State();
    if battery.Value? {
      store.AddDataPoint(Name(BatteryLevel), Real(battery.value.level as real), time, false);
      store.AddDataPoint(Name(BatteryTemperature), Number(battery.value.temperature), time, false);
      FeedPair(s0, (BatteryLevel, Real(battery.value.level as real)), (BatteryTemperature, Number(battery.value.temperature)), time);
    } else {
      store.AddDataPoint(Name(BatteryLevel), Null, time, false);
      store.AddDataPoint(Name(BatteryTemperature), Null, time, false);
      FeedPair(s0, (BatteryLevel, Null), (BatteryTemperature, Null), time);
    }
  }

  /** The network section of a round: networkRx and networkTx, or two
      nulls. */
  method AddNetworkPoints(store: PerformanceStore, network: Outcome<NetworkCollector.Rates>, time: string)
    requires store.Valid()
    modifies store
    ensures store.Valid() && store.State() == Feed(old(store.State()), NetworkPoints(network), time)
  {
    ghost var s0 := store.State();
    if network.Value? {
      store.AddDataPoint(Name(NetworkRx), Real(network.value.download), time, false);
      store.AddDataPoint(Name(NetworkTx), Real(network.value.upload), time, false);
      FeedPair(s0, (NetworkRx, Real(network.value.download)), (NetworkTx, Real(network.value.upload)), time);
    } else {
      store.AddDataPoint(Name(NetworkRx), Null, time, false);
      store.AddDataPoint(Name(NetworkTx), Null, time, false);
      FeedPair(s0, (NetworkRx, Null), (NetworkTx, Null), time);
    }
  }

  /** The frame-rate section of a round: fps and jankCount, or two nulls. */
  method AddFpsPoints(store: PerformanceStore, fps: Outcome<FpsCollector.FpsResult>, time: string)
    requires store.Valid()
    modifies store
    ensures store.Valid() && store.State() == Feed(old(store.State()), FpsPoints(fps), time)
  {
    ghost var s0 := store.State();
    if fps.Value? {
      store.AddDataPoint(Name(Fps), Real(fps.value.fps as real), time, false);
      store.AddDataPoint(Name(JankCount), Real(fps.value.jank as real), time, false);
      FeedPair(s0, (Fps, Real(fps.value.fps as real)), (JankCount, Real(fps.value.jank as real)), time);
    } else {
      store.AddDataPoint(Name(Fps), Null, time, false);
      store.AddDataPoint(Name(JankCount), Null, time, false);
      FeedPair(s0, (Fps, Null), (JankCount, Null), time);
    }
  }

  class PerformanceMonitor {
    var monitorInterval: bool
    var intervalTime: real
    var isRunning: bool
    var packageName: string
    var pid: string
    var performanceStore: PerformanceStore?
    var dataPointCount: nat

    /** The collectors whose state start resets. */
    const network: NetworkCollector.NetworkCollector
    const fps: FpsCollector.FpsCollector
    const battery: BatteryCollector.BatteryCollector

    function State(): MonitorState
      reads this
    {
      MonitorState(monitorInterval, intervalTime, isRunning, packageName, pid, dataPointCount)
    }

    /** A running monitor has a store, a package and a pid. */
    predicate Valid()
      reads this, performanceStore, fps
    {
      && (performanceStore != null ==> performanceStore.Valid())
      && (isRunning ==> performanceStore != null && packageName != "" && pid != "")
      && fps.Valid()
    }

    constructor(network: NetworkCollector.NetworkCollector, fps: FpsCollector.FpsCollector,
                battery: BatteryCollector.BatteryCollector)
      requires fps.Valid()
      ensures Valid() && State() == InitialMonitor && performanceStore == null
      ensures this.network == network && this.fps == fps && this.battery == battery
    {
      monitorInterval := false;
      intervalTime := 1000.0;
      isRunning := false;
      packageName := "";
      pid := "";
      performanceStore := null;
      dataPointCount := 0;
      this.network := network;
      this.fps := fps;
      this.battery := battery;
    }

    /** init: attach the store. */
    method Init(store: PerformanceStore)
      requires Valid() && store.Valid()
      modifies this
      ensures Valid() && performanceStore == store && State() == old(State())
    {
      performanceStore := store;
    }

    /** setIntervalTime: an interval of at least 500 ms is taken, and a
        running monitor is stopped and started again for its package, which
        looks its pid up anew. */
    method SetIntervalTime(milliseconds: real, exec: string -> string)
      requires Valid()
      modifies this, performanceStore, network, fps, battery
      ensures Valid() && performanceStore == old(performanceStore)
      ensures milliseconds < MinIntervalTime || !old(isRunning) ==>
                && (performanceStore != null ==> unchanged(performanceStore))
                && unchanged(network) && unchanged(fps) && unchanged(battery)
      ensures milliseconds < MinIntervalTime ==> State() == old(State())
      ensures milliseconds >= MinIntervalTime && !old(isRunning) ==> State() == old(State()).(intervalTime := milliseconds)
      ensures milliseconds >= MinIntervalTime && old(isRunning) && ResolvedPid(old(packageName), "", exec) == "" ==>
                && State() == old(State()).(monitorInterval := false, intervalTime := milliseconds, isRunning := false, pid := "")
                && performanceStore.State() == old(performanceStore.State()).(isMonitoring := false)
                && unchanged(network) && unchanged(fps) && unchanged(battery)
      ensures milliseconds >= MinIntervalTime && old(isRunning) && ResolvedPid(old(packageName), "", exec) != "" ==>
                && State() == old(State()).(monitorInterval := true, intervalTime := milliseconds, isRunning := true,
                                            pid := ResolvedPid(old(packageName), "", exec), dataPointCount := 0)
                && performanceStore.State() ==
                     old(performanceStore.State()).(currentPackageName := old(packageName), currentPid := Some(pid),
                                                    history := NoHistory, timeStamps := [], isMonitoring := true)
                && network.State() == NetworkCollector.NetState(0, 0, 0)
                && fps.isFirst && fps.lastTimestamp == 0.0
                && battery.State() == BatteryCollector.NoHistory
    {
      if milliseconds >= MinIntervalTime {
        intervalTime := milliseconds;
        if isRunning {
          Stop();
          var _ := Start(packageName, "", exec);
        }
      }
    }

    /** resetCollectors. */
    method ResetCollectors()
      requires Valid()
      modifies this, network, fps, battery
      ensures Valid() && State() == old(State()).(dataPointCount := 0) && performanceStore == old(performanceStore)
      ensures network.State() == NetworkCollector.NetState(0, 0, 0)
      ensures fps.isFirst && fps.lastTimestamp == 0.0
      ensures battery.State() == BatteryCollector.NoHistory
    {
      network.Reset();
      fps.Reset();
      battery.Reset();
      dataPointCount := 0;
    }

    /** start. It fails without any change when there is no store, the
        monitor is running or the package name is missing; it fails after
        recording the package when no pid is given or found. Otherwise the
        store switches to the application with an empty history, the
        collectors are reset and the monitor runs. */
    method Start(packageName: string, pid: string, exec: string -> string) returns (ok: bool)
      requires Valid()
      modifies this, performanceStore, network, fps, battery
      ensures Valid() && performanceStore == old(performanceStore)
      ensures var resolved := ResolvedPid(packageName, pid, exec);
              ok <==> old(performanceStore) != null && !old(isRunning) && packageName != "" && resolved != ""
      ensures !ok ==> unchanged(network) && unchanged(fps) && unchanged(battery)
      ensures old(performanceStore) == null || old(isRunning) || packageName == "" ==>
                State() == old(State()) && (performanceStore != null ==> unchanged(performanceStore))
      ensures old(performanceStore) != null && !old(isRunning) && packageName != "" && !ok ==>
                State() == old(State()).(packageName := packageName, pid := "") && unchanged(performanceStore)
      ensures ok ==>
                && State() == old(State()).(monitorInterval := true, isRunning := true, packageName := packageName,
                                            pid := ResolvedPid(packageName, pid, exec), dataPointCount := 0)
                && performanceStore.State() ==
                     old(performanceStore.State()).(currentPackageName := packageName, currentPid := Some(this.pid),
                                                    history := NoHistory, timeStamps := [], isMonitoring := true)
                && network.State() == NetworkCollector.NetState(0, 0, 0)
                && fps.isFirst && fps.lastTimestamp == 0.0
                && battery.State() == BatteryCollector.NoHistory
    {
      if performanceStore == null || isRunning || packageName == "" {
        return false;
      }
      this.packageName := packageName;
      if pid != "" {
        this.pid := pid;
      } else {
        var found := GetPid(packageName, exec);
        this.pid := match found case Some(p) => p case None => "";
      }
      if this.pid == "" {
        return false;
      }
      performanceStore.SetCurrentApp(packageName, Some(this.pid));
      ResetCollectors();
      monitorInterval := true;
      isRunning := true;
      performanceStore.SetMonitoringStatus(true);
      return true;
    }

    /** stop: the ticker is cleared and the monitor and the store's flag
        are off. */
    method Stop()
      requires Valid()
      modifies this, performanceStore
      ensures Valid() && performanceStore == old(performanceStore)
      ensures State() == old(State()).(monitorInterval := false, isRunning := false)
      ensures performanceStore != null ==> performanceStore.State() == old(performanceStore.State()).(isMonitoring := false)
    {
      if monitorInterval {
        monitorInterval := false;
      }
      isRunning := false;
      if performanceStore != null {
        performanceStore.SetMonitoringStatus(false);
      }
    }

    /** collectPerformanceData: a round. It does nothing unless the monitor
        runs; otherwise it counts the round, adds one timestamp and one
        sample per fed series, and checks the alignment. */
    method CollectPerformanceData(results: RoundResults, time: string)
      requires Valid()
      modifies this, performanceStore
      ensures Valid() && performanceStore == old(performanceStore)
      ensures old(performanceStore) == null || !old(isRunning) ==>
                State() == old(State()) && (performanceStore != null ==> unchanged(performanceStore))
      ensures old(performanceStore) != null && old(isRunning) ==>
                && State() == old(State()).(dataPointCount := old(dataPointCount) + 1)
                && performanceStore.State() == Aligned(RoundStep(old(performanceStore.State()), results, time))
    {
      if performanceStore == null || !isRunning {
        return;
      }
      dataPointCount := dataPointCount + 1;
      var store := performanceStore;
      store.AddDataPoint(TimestampOnly, Null, time, true);
      AddRound(store, results, time);
      CheckDataAlignment();
    }

    /** The ten addDataPoint calls of a round, in order. */
    method AddRound(store: PerformanceStore, results: RoundResults, time: string)
      requires store.Valid()
      modifies store
      ensures store.Valid() && store.State() == Feed(old(store.State()), RoundPoints(results), time)
    {
      ghost var s0 := store.State();
      AddCpuPoints(store, results.cpu, time);
      ghost var s1 := store.State();
      AddMemoryPoints(store, results.memory, results.memoryDetail, time);
      ghost var s2 := store.State();
      AddBatteryPoints(store, results.battery, time);
      ghost var s3 := store.State();
      AddNetworkPoints(store, results.network, time);
      ghost var s4 := store.State();
      AddFpsPoints(store, results.fps, time);
      ghost var cpu, memory, battery, network := CpuPoints(results.cpu), MemoryPoints(results.memory, results.memoryDetail),
                                                 BatteryPoints(results.battery), NetworkPoints(results.network);
      RoundPointsSections(results);
      FeedAppend(s0, cpu + memory + battery + network, FpsPoints(results.fps), time);
      FeedAppend(s0, cpu + memory + battery, network, time);
      FeedAppend(s0, cpu + memory, battery, time);
      FeedAppend(s0, cpu, memory, time);
    }

    /** checkDataAlignment: every checked series shorter than timeStamps is
        padded with nulls up to its length. */
    method CheckDataAlignment()
      requires Valid()
      modifies performanceStore
      ensures Valid()
      ensures performanceStore != null ==> performanceStore.State() == Aligned(old(performanceStore.State()))
    {
      if performanceStore == null {
        return;
      }
      var store: PerformanceStore := performanceStore;
      var timestampsLength := |store.timeStamps|;
      var allEqual := forall i :: 0 <= i < |CheckedMetrics| ==> |store.history[CheckedMetrics[i]]| == timestampsLength;
      if allEqual {
        NothingToPad(store.history, CheckedMetrics, timestampsLength);
        return;
      }
      var history := PadToLength(store.history, CheckedMetrics, timestampsLength);
      store.history := history;
    }
  }
}
