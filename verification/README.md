# NowWebAdb core, modelled in Dafny

NowWebAdb is a browser front end for Android devices over WebUSB ADB. This
project models its core:

- the performance telemetry: the CPU, memory, battery, network and FPS
  collectors, the store of bounded time series they feed, and the monitor
  that runs collection rounds;
- the foreground-app collector;
- the parsers and formatters of the device-information page;
- the two copies of the shell channel (`adbManager`);
- the input handling of the screen-mirroring page (`ScrcpyLogic`) and of
  the reusable mirroring controller (`eventHandler`).

Every collector reads the device only through the shell. Here the shell is
an oracle `exec: string -> string` from command text to output. `Date.now()`
is a parameter, and every `Math.random()` draw is a parameter in [0, 1).
Numbers are exact reals. A JavaScript number that `parseFloat` may turn into
NaN is `Num`. `Math.round` and "round to two decimals" are written with
`Floor`.

Stateful parts are classes whose methods are proved equal to a pure step
function on the old state; the properties are lemmas about that function.
This covers the module-level records of the FPS, network and battery
collectors, the store, the monitor, the adb slot and the mirroring
session. Loops of the source are `while` loops with invariants:

- the sum of CPU ticks;
- the interface search;
- the per-uid statistics sum;
- the frame-line parser;
- both jank counters;
- the SurfaceView window search;
- the pid search;
- the padding of `checkDataAlignment`;
- the ways of `collectForegroundApp` and `getWifiInfo`;
- the touch messages of `injectTouch`.

Shared modules:

- `Util`: Option, `Num`, rounding.
- `Text`: JavaScript whitespace, `trim`, `split`, `includes`, `parseInt`, `parseFloat`.
- `Pattern`: leftmost matching of regexes made of literals and greedy
  character-class runs.
- `ScrcpyControl`: the scrcpy control messages, browser events and lodash `clamp`.

## Model

| member | source | states |
|---|---|---|
| CpuCollector.ProcessCpuStat | src/utils/performance/collectors/cpuCollector.js:13-40 | empty output or fewer than 17 fields gives 0 |
| CpuCollector.ProcessTicksRead | src/utils/performance/collectors/cpuCollector.js:26-35 | otherwise the value is the sum of fields 13 to 16, and it is a number exactly when all four parse |
| CpuCollector.TotalCpuStat | src/utils/performance/collectors/cpuCollector.js:46-75 | empty output or fewer than 8 fields gives 0 |
| CpuCollector.GetTotalCpuStat | src/utils/performance/collectors/cpuCollector.js:64-70 | the accumulating loop computes the total of fields 1 to 7 |
| CpuCollector.SumTokensFinite | src/utils/performance/collectors/cpuCollector.js:64-70 | a sum of parsed fields is a number exactly when every field parses |
| CpuCollector.TotalTicksRead | src/utils/performance/collectors/cpuCollector.js:46-75 | the total is a number exactly when fields 1 to 7 all parse |
| CpuCollector.IdleCpuStat | src/utils/performance/collectors/cpuCollector.js:81-105 | 0 for empty or short output, else field 4 as parseFloat reads it |
| CpuCollector.CollectCpuUsage | src/utils/performance/collectors/cpuCollector.js:112-159 | the method computes the usage of the two snapshots as specified by CpuUsageOf |
| CpuCollector.NoPidNoUsage | src/utils/performance/collectors/cpuCollector.js:114-117 | without a pid the result is {0, 0} whatever the device says |
| CpuCollector.NoElapsedTicks | src/utils/performance/collectors/cpuCollector.js:137-140 | if the total did not grow, the result is {0, 0} |
| CpuCollector.AppShare | src/utils/performance/collectors/cpuCollector.js:143-152 | appCpu is 100·Δprocess/Δtotal, to within half a hundredth |
| CpuCollector.SystemShare | src/utils/performance/collectors/cpuCollector.js:146-152 | systemCpu is 100·Δbusy/Δtotal, to within half a hundredth |
| CpuCollector.AppShareBounded | src/utils/performance/collectors/cpuCollector.js:143-152 | when the process ticks grew no more than the total, appCpu lies in [0, 100] |
| CpuCollector.FractionWithinUnit | src/utils/performance/collectors/cpuCollector.js:143-152 | a part over a whole it does not exceed lies in [0, 1] |
| CpuCollector.NotClamped | src/utils/performance/collectors/cpuCollector.js:143-152 | nothing clamps the share: 300 is reported when the process ticks grew three times the total |
| CpuCollector.UnreadableCounterIsNaN | src/utils/performance/collectors/cpuCollector.js:143-152 | an unparsable process counter makes appCpu NaN |
| MemoryCollector.ConvertToMB | src/utils/performance/collectors/memoryCollector.js:92-96 | no value gives 0; otherwise kb/1024 to within half a hundredth, and never negative |
| MemoryCollector.ConvertToMBMonotone | src/utils/performance/collectors/memoryCollector.js:92-96 | more kilobytes never show as fewer megabytes |
| MemoryCollector.ConvertWholeMegabytes | src/utils/performance/collectors/memoryCollector.js:92-96 | a whole number of megabytes converts exactly |
| MemoryCollector.TotalPss | src/utils/performance/collectors/memoryCollector.js:23-39 | blank output gives 0, and the value is never negative |
| MemoryCollector.MemoryUsage | src/utils/performance/collectors/memoryCollector.js:13-44 | no pid or blank output gives 0; otherwise the TOTAL figure of the meminfo dump |
| MemoryCollector.TotalIsFirstTotal | src/utils/performance/collectors/memoryCollector.js:29-39 | totalPss is the converted number after the first `TOTAL`, and 0 when there is none |
| MemoryCollector.NoTotalIsZero | src/utils/performance/collectors/memoryCollector.js:29-33 | output without a `TOTAL` number gives 0 |
| MemoryCollector.Figure | src/utils/performance/collectors/memoryCollector.js:83-96 | a detailed figure is never negative |
| MemoryCollector.MissingLabelIsZero | src/utils/performance/collectors/memoryCollector.js:83-96 | a label that is absent from the output gives 0 |
| MemoryCollector.DetailFrom | src/utils/performance/collectors/memoryCollector.js:98-106 | each of the seven fields of the record is the figure read for its own label |
| MemoryCollector.DetailOf | src/utils/performance/collectors/memoryCollector.js:83-106 | each of the seven fields is the figure of its own label |
| MemoryCollector.DetailedMemoryUsage | src/utils/performance/collectors/memoryCollector.js:51-106 | no pid or blank output gives all seven fields 0; no field is negative |
| MemoryCollector.MissingLabelOnlyZeroesItsFigure | src/utils/performance/collectors/memoryCollector.js:83-106 | a missing label zeroes its own field and leaves the other six as read |
| BatteryCollector.LevelOf | src/utils/performance/collectors/batteryCollector.js:32-55 | a level that was read is never negative |
| BatteryCollector.ReadLevel | src/utils/performance/collectors/batteryCollector.js:32-55 | the level is read through the fallbacks in order, as specified by LevelOf |
| BatteryCollector.ReadTemperature | src/utils/performance/collectors/batteryCollector.js:57-80 | the temperature is read through the fallbacks in order, as specified by TemperatureOf |
| BatteryCollector.ClampNum | src/utils/performance/collectors/batteryCollector.js:188-190 | the clamped value is a number exactly when the input is, and it lies within the bounds |
| BatteryCollector.StepStoresReading | src/utils/performance/collectors/batteryCollector.js:105-108 | every round stores the reading it returns as the previous reading |
| BatteryCollector.UnreadableIsSimulated | src/utils/performance/collectors/batteryCollector.js:27-30 | blank output, or a level or temperature that cannot be read, gives the simulated reading |
| BatteryCollector.SimulatedWithHistory | src/utils/performance/collectors/batteryCollector.js:182-190 | with a previous reading, the level drops by 0 or 1 but not below 1, and the temperature moves at most 0.5 within [20, 45] |
| BatteryCollector.SimulatedFresh | src/utils/performance/collectors/batteryCollector.js:191-195 | without a previous reading, the level lies in [70, 99] and the temperature in [25, 35]; toFixed(1) can round a draw just under 35 up to 35.0 |
| BatteryCollector.ReadableIsAccepted | src/utils/performance/collectors/batteryCollector.js:82-103 | a readable level and temperature go through the range checks and the smoothing |
| BatteryCollector.FirstReadingAsRead | src/utils/performance/collectors/batteryCollector.js:88-103 | a first reading in range is returned unchanged |
| BatteryCollector.FirstReadingOutOfRange | src/utils/performance/collectors/batteryCollector.js:88-97 | a first reading out of range is replaced: the level by a value in [0, 99], the temperature by one in [25, 35) |
| BatteryCollector.SmoothedReading | src/utils/performance/collectors/batteryCollector.js:99-103 | with a previous reading, level = round(0.3·new + 0.7·prev) and temperature = 0.3·new + 0.7·prev to one decimal |
| BatteryCollector.AcceptedKeepsRange | src/utils/performance/collectors/batteryCollector.js:88-108 | from a previous reading in range, an accepted reading stays in range |
| BatteryCollector.SimulatedKeepsRange | src/utils/performance/collectors/batteryCollector.js:178-201 | from a previous reading in range, a simulated reading stays in range |
| BatteryCollector.StepKeepsRange | src/utils/performance/collectors/batteryCollector.js:21-113 | every round keeps the stored reading in range (level in [0, 100], temperature in [0, 60]) |
| BatteryCollector.NaNTemperaturePersists | src/utils/performance/collectors/batteryCollector.js:88-103 | a NaN previous temperature survives every accepted round, because NaN fails no range check |
| BatteryCollector.BatteryHealth | src/utils/performance/collectors/batteryCollector.js:119-155 | blank output gives unknown/0/0; the health is lower case, and the voltage is not negative |
| BatteryCollector.HealthOfWord | src/utils/performance/collectors/batteryCollector.js:130-135 | on a non-blank dump the health is the word of `\w` characters after the first `health:`, lower-cased, and `unknown` when no such word follows |
| BatteryCollector.VoltageOfNumber | src/utils/performance/collectors/batteryCollector.js:137-142 | on a non-blank dump the voltage is what parseInt reads from the digits after the first `voltage:`, and 0 when there are none |
| BatteryCollector.HealthCurrent | src/utils/performance/collectors/batteryCollector.js:144-149 | the current is the signed figure after `current now:` divided by 1000 |
| BatteryCollector.CurrentCaptures | src/utils/performance/collectors/batteryCollector.js:144-146 | a match of the current pattern captures an empty or minus sign and a run of digits |
| BatteryCollector.BatteryCollector.constructor | src/utils/performance/collectors/batteryCollector.js:9-12 | a new record has no previous reading |
| BatteryCollector.BatteryCollector.Reset | src/utils/performance/collectors/batteryCollector.js:206-211 | reset clears the previous reading |
| BatteryCollector.BatteryCollector.GenerateSimulatedBatteryData | src/utils/performance/collectors/batteryCollector.js:178-201 | the new record and the reading are those of Simulated on the old record |
| BatteryCollector.BatteryCollector.CollectBatteryInfo | src/utils/performance/collectors/batteryCollector.js:21-113 | the new record and the reading are those of BatteryStep on the old record |
| BatteryCollector.BatteryCollector.Accept | src/utils/performance/collectors/batteryCollector.js:88-108 | range checks, smoothing and storing match Accepted on the old record |
| NetworkCollector.AppUid | src/utils/performance/collectors/networkCollector.js:27-49 | a uid that was found consists of digits |
| NetworkCollector.FirstMentioned | src/utils/performance/collectors/networkCollector.js:69-87 | the name found is in the list and occurs in the text; None means no name occurs |
| NetworkCollector.InterfacesAreKnown | src/utils/performance/collectors/networkCollector.js:55-95 | the Wi-Fi and mobile interfaces are always names from the source's candidate lists |
| NetworkCollector.FirstMentionedIsFirst | src/utils/performance/collectors/networkCollector.js:69-75 | the first name of the list that occurs is the one chosen |
| NetworkCollector.FindMentioned | src/utils/performance/collectors/networkCollector.js:69-75 | the loop with early break finds what FirstMentioned specifies |
| NetworkCollector.DetectNetworkInterfaces | src/utils/performance/collectors/networkCollector.js:55-95 | both searches over `/proc/net/dev` give the interfaces InterfacesOf specifies |
| NetworkCollector.Columns | src/utils/performance/collectors/networkCollector.js:114 | the skipped columns capture nothing |
| NetworkCollector.InterfacePattern | src/utils/performance/collectors/networkCollector.js:114 | the interface pattern captures exactly two digit runs, received and sent bytes |
| NetworkCollector.InterfaceStatsOf | src/utils/performance/collectors/networkCollector.js:102-130 | the counters of an interface are never negative |
| NetworkCollector.InterfaceStatsRead | src/utils/performance/collectors/networkCollector.js:114-125 | no match gives (0, 0); a match gives the two captured numbers |
| NetworkCollector.SumOverAppend | src/utils/performance/collectors/networkCollector.js:156-165 | summing over two runs of lines is the sum of the two sums |
| NetworkCollector.SumLinesAppend | src/utils/performance/collectors/networkCollector.js:156-165 | the per-uid sum distributes over concatenation |
| NetworkCollector.SumLinesSnoc | src/utils/performance/collectors/networkCollector.js:156-165 | one more line adds its own counters |
| NetworkCollector.SumLinesPrefix | src/utils/performance/collectors/networkCollector.js:156-165 | the loop's prefix sums grow line by line |
| NetworkCollector.ShortLinesAddNothing | src/utils/performance/collectors/networkCollector.js:159-164 | a line with too few fields adds nothing |
| NetworkCollector.ReadStatLine | src/utils/performance/collectors/networkCollector.js:158-164 | the bytes of one statistics line, as specified by LineCounters |
| NetworkCollector.SumStatLines | src/utils/performance/collectors/networkCollector.js:156-165 | the accumulating loop computes the sum SumLines specifies |
| NetworkCollector.GetNetworkStats | src/utils/performance/collectors/networkCollector.js:137-185 | the method computes the counters NetworkStatsOf specifies |
| NetworkCollector.StatsSources | src/utils/performance/collectors/networkCollector.js:139-179 | no uid gives (0, 0); without per-uid statistics, the Wi-Fi counters plus the mobile counters |
| NetworkCollector.SyntheticRanges | src/utils/performance/collectors/networkCollector.js:197-199 | the simulated upload lies in [10, 59] and the download in [50, 149] |
| NetworkCollector.UnmeasuredRoundKeepsBaseline | src/utils/performance/collectors/networkCollector.js:194-212 | without a package or a uid, simulated rates are returned and the record is unchanged |
| NetworkCollector.RatesBounded | src/utils/performance/collectors/networkCollector.js:243-259 | reported rates are never negative |
| NetworkCollector.BaselineRound | src/utils/performance/collectors/networkCollector.js:219-230 | the first measured round stores the counters and the time, and reports the synthetic rates floor(r·50)+10 up and floor(r·100)+50 down |
| NetworkCollector.StalledClockKeepsBaseline | src/utils/performance/collectors/networkCollector.js:233-240 | a round whose clock did not advance keeps the record |
| NetworkCollector.MeasuredRound | src/utils/performance/collectors/networkCollector.js:243-265 | rates are byte differences per elapsed second in KB, and the record moves to this round |
| NetworkCollector.CounterResetIsSynthetic | src/utils/performance/collectors/networkCollector.js:251-259 | a download counter whose rate rounds below zero is replaced by the synthetic value |
| NetworkCollector.NetworkCollector.constructor | src/utils/performance/collectors/networkCollector.js:9-13 | a new record is all zero |
| NetworkCollector.NetworkCollector.Reset | src/utils/performance/collectors/networkCollector.js:281-288 | reset sets the record back to zero |
| NetworkCollector.NetworkCollector.CollectNetworkUsage | src/utils/performance/collectors/networkCollector.js:192-276 | the new record and the rates are those of NetworkStep on the old record |
| NetworkCollector.NetworkCollector.Measure | src/utils/performance/collectors/networkCollector.js:219-265 | the new record and the rates are those of RatesStep on the old record |
| FpsCollector.SurfaceViewChoiceFirst | src/utils/performance/collectors/fpsCollector.js:99-103 | the first line naming a SurfaceView of the package is chosen |
| FpsCollector.SurfaceViewChoiceLast | src/utils/performance/collectors/fpsCollector.js:106-108 | without such a line, the last line is chosen |
| FpsCollector.GetSurfaceViewWindow | src/utils/performance/collectors/fpsCollector.js:85-116 | the search loop with early return gives SurfaceViewWindow, which is the package name for an empty list |
| FpsCollector.EscapeDollar | src/utils/performance/collectors/fpsCollector.js:69-71 | every `$` gains one backslash; text without `$` is unchanged |
| FpsCollector.GetFocusWindow | src/utils/performance/collectors/fpsCollector.js:32-78 | the window is the focus-regex window when it names the package, else the SurfaceView window |
| FpsCollector.ClearLatencyData | src/utils/performance/collectors/fpsCollector.js:123-138 | clearing succeeds exactly when there is a window and the command prints nothing |
| FpsCollector.ReadLine | src/utils/performance/collectors/fpsCollector.js:244-257 | a frame that was read never has the pending-fence vsync |
| Text.BigIntOf | src/utils/performance/collectors/fpsCollector.js:249 | the empty token is 0 and decimal digits give their value; a result is negative only for `-` followed by decimal digits; a token with a `0x`, `0o` or `0b` prefix (either case) is read in that base when all its digits belong to it and throws otherwise; a token that starts with neither a digit nor a sign throws |
| Text.RadixTenIsDecimal | src/utils/performance/collectors/fpsCollector.js:249 | a run of decimal digits read in base 10 gives its decimal value |
| Text.HexLiteral | src/utils/performance/collectors/fpsCollector.js:249 | `0x1F` reads as 31 |
| Text.OctalLiteral | src/utils/performance/collectors/fpsCollector.js:249 | `0o17` reads as 15 |
| Text.BinaryLiteral | src/utils/performance/collectors/fpsCollector.js:249 | `0B101` reads as 5 |
| Text.BigIntSyntax | src/utils/performance/collectors/fpsCollector.js:249 | `-42` reads as -42; `-0x1`, `0x`, `0b2` and `1.5` throw |
| FpsCollector.ParseFramesFails | src/utils/performance/collectors/fpsCollector.js:244-257 | parsing fails exactly when some timestamp line is malformed |
| FpsCollector.ParseFramesSound | src/utils/performance/collectors/fpsCollector.js:244-257 | every parsed frame comes from a line of the dump, and there are no more frames than lines |
| FpsCollector.LatencyData | src/utils/performance/collectors/fpsCollector.js:222-258 | rejected output has no frames; a refresh period is never negative |
| FpsCollector.LatencyDataAccepted | src/utils/performance/collectors/fpsCollector.js:226-237 | the dump yields data exactly when it is not blank, its header is a number and every timestamp line is well formed |
| FpsCollector.LatencyDataFrames | src/utils/performance/collectors/fpsCollector.js:244-257 | every frame comes from a timestamp line from the third line on |
| FpsCollector.ParseFramesAt | src/utils/performance/collectors/fpsCollector.js:244-257 | parsing from line i is reading line i, then parsing the rest |
| FpsCollector.PrependNothing | src/utils/performance/collectors/fpsCollector.js:244-257 | no frames in front leave the rest as parsed |
| FpsCollector.PrependOne | src/utils/performance/collectors/fpsCollector.js:244-257 | pushing one frame moves it from the rest to the front |
| FpsCollector.GetSurfaceFlingerFrameData | src/utils/performance/collectors/fpsCollector.js:146-150 | no window gives no data; otherwise the data of the latency dump |
| FpsCollector.ReadTimestamps | src/utils/performance/collectors/fpsCollector.js:244-257 | the push loop over the timestamp lines computes ParseFrames |
| FpsCollector.CalculateJanky | src/utils/performance/collectors/fpsCollector.js:308-326 | the loop computes the count Janky specifies |
| FpsCollector.JankyFromCountsGaps | src/utils/performance/collectors/fpsCollector.js:308-326 | when no vsync is zero, the count from frame i is the number of gaps longer than the threshold |
| FpsCollector.JankyCountsLongGaps | src/utils/performance/collectors/fpsCollector.js:308-326 | calculateJanky counts the vsync gaps longer than the jank threshold |
| FpsCollector.JankyFromBound | src/utils/performance/collectors/fpsCollector.js:308-326 | from frame i at most the remaining frames are counted, and one fewer when no baseline is set |
| FpsCollector.JankyBound | src/utils/performance/collectors/fpsCollector.js:308-326 | the first frame is never janky |
| FpsCollector.CalculateJankyNew | src/utils/performance/collectors/fpsCollector.js:333-377 | the loop computes the count JankyNew specifies |
| FpsCollector.JankyNewFromShort | src/utils/performance/collectors/fpsCollector.js:342-352 | on four frames or fewer the new rule counts as the old one |
| FpsCollector.JankyNewAgreesOnShort | src/utils/performance/collectors/fpsCollector.js:342-352 | on four frames or fewer both counters agree |
| FpsCollector.JankyNewFromTail | src/utils/performance/collectors/fpsCollector.js:353-373 | from the fifth frame on, only the adaptive rule counts |
| FpsCollector.JankyNewFromHead | src/utils/performance/collectors/fpsCollector.js:342-373 | the count is the simple rule on the first four frames plus the adaptive rule after them |
| FpsCollector.JankyNewSplits | src/utils/performance/collectors/fpsCollector.js:333-377 | calculateJankyNew = calculateJanky of the first four frames + the adaptive count |
| FpsCollector.AdaptiveJanksBound | src/utils/performance/collectors/fpsCollector.js:353-373 | the adaptive rule counts at most the frames it sees |
| FpsCollector.JankyNewBound | src/utils/performance/collectors/fpsCollector.js:333-377 | the first frame is never janky under the new rule either |
| FpsCollector.JankyExampleOneLongGap | src/utils/performance/collectors/fpsCollector.js:316-322 | gaps of 100 ms and 200 ms count one jank |
| FpsCollector.JankyExampleNoLongGap | src/utils/performance/collectors/fpsCollector.js:316-322 | gaps of 100 ms and 150 ms count none |
| FpsCollector.CalculateResults | src/utils/performance/collectors/fpsCollector.js:273-301 | no frames gives {0, 0}; a zero span gives fps 1; otherwise fps is the rounded frames per second, and jank is at most one less than the frames |
| FpsCollector.Newer | src/utils/performance/collectors/fpsCollector.js:459-466 | the kept frames are exactly those newer than the baseline |
| FpsCollector.FirstRoundPrimes | src/utils/performance/collectors/fpsCollector.js:442-447 | the first round after a reset clears the buffer, reports {0, 0} and ends the first-round phase |
| FpsCollector.ReplayReportsNothing | src/utils/performance/collectors/fpsCollector.js:459-472 | with a baseline set, data holding fewer than two frames newer than it (none, or one survivor) reports {0, 0} and keeps the baseline |
| FpsCollector.BaselineAdvances | src/utils/performance/collectors/fpsCollector.js:469 | the baseline never moves back; a round with a refresh period and at least two newer frames moves it to the vsync of the last newer frame, which is later than the old baseline; any other round keeps the baseline and reports {0, 0} |
| FpsCollector.ReportedFramesAreNew | src/utils/performance/collectors/fpsCollector.js:459-472 | a reported rate is computed only from frames newer than the baseline |
| FpsCollector.ParseGfxInfo | src/utils/performance/collectors/fpsCollector.js:384-420 | the rate lies in [0, 120], and it is 0 without frames or without an earlier sample |
| FpsCollector.FpsCollector.constructor | src/utils/performance/collectors/fpsCollector.js:18-26 | a new record is in the first-round phase with no baseline |
| FpsCollector.FpsCollector.Reset | src/utils/performance/collectors/fpsCollector.js:484-494 | reset restores the first-round phase and clears the baseline |
| FpsCollector.FpsCollector.CollectFps | src/utils/performance/collectors/fpsCollector.js:427-479 | the new record and the result are those of FpsStep on the old record |
| FpsCollector.FpsCollector.NextRound | src/utils/performance/collectors/fpsCollector.js:459-472 | a later round, once the data is read, matches Advance |
| FpsCollector.FpsCollector.GfxInfoNow | src/utils/performance/collectors/fpsCollector.js:384-420 | against the collector's own record, parseGfxInfo always gives 0 fps |
| PerformanceStore.AllMetricsComplete | src/stores/performance.js:7-48 | the store has one series for every metric |
| PerformanceStore.MetricOf | src/stores/performance.js:87-124 | a name selects a metric only if it is that metric's name |
| PerformanceStore.MetricOfName | src/stores/performance.js:87-124 | every metric's own name selects it, so names and series correspond one to one |
| PerformanceStore.TimestampOnlyIsNoMetric | src/stores/performance.js:82-84 | `timestamp-only` names no series |
| PerformanceStore.AddToLimited | src/stores/performance.js:132-138 | the value is pushed and the result is the newest elements of that; one is dropped exactly when the bound is positive and exceeded |
| PerformanceStore.AddToLimitedLast | src/stores/performance.js:132-138 | the pushed value is the newest element, unless the series was empty and the bound lies strictly between 0 and 1 |
| PerformanceStore.FractionalBound | src/stores/performance.js:132-138 | under a bound strictly between 0 and 1, a non-empty series drops its oldest element and gains the pushed value, so its length is kept; an empty series stays empty |
| PerformanceStore.AddToLimitedBounded | src/stores/performance.js:135-137 | with a positive bound, a series within the bound stays within it |
| PerformanceStore.AddToLimitedKeepsNewest | src/stores/performance.js:132-138 | at most the oldest element goes, and the rest keep their order |
| PerformanceStore.AddToLimitedUnbounded | src/stores/performance.js:135 | with bound 0 the series only grows, by one |
| PerformanceStore.AddToLimitedSameLength | src/stores/performance.js:132-138 | series of equal length stay of equal length |
| PerformanceStore.NoHistoryHasAllSeries | src/stores/performance.js:143-157 | the emptied history still has every series |
| PerformanceStore.AddPoint | src/stores/performance.js:69-125 | adding a point keeps every series present |
| PerformanceStore.AddPointRoutes | src/stores/performance.js:77-124 | a known metric pushes to its own series only; timeStamps grows exactly when asked to; nothing else changes |
| PerformanceStore.AddPointUnknownMetric | src/stores/performance.js:82-124 | a name that is no metric changes no series |
| PerformanceStore.AddPointTimestampOnly | src/stores/performance.js:77-84 | `timestamp-only` only pushes the time |
| PerformanceStore.SetMax | src/stores/performance.js:55-60 | only a number ≥ 0 replaces the bound; series are never cut |
| PerformanceStore.Latest | src/stores/performance.js:185-243 | the newest sample, or 0 for an empty series |
| PerformanceStore.LatestAfterAdd | src/stores/performance.js:69-243 | what was just added is what the getter reports, unless the series was empty and the bound lies strictly between 0 and 1 |
| PerformanceStore.PerformanceStore.constructor | src/stores/performance.js:7-48 | every series is empty, monitoring is off and the bound is 300 |
| PerformanceStore.PerformanceStore.SetMaxDataPoints | src/stores/performance.js:55-60 | the new state is SetMax of the old |
| PerformanceStore.PerformanceStore.AddDataPoint | src/stores/performance.js:69-125 | the new state is AddPoint of the old |
| PerformanceStore.PerformanceStore.ClearHistory | src/stores/performance.js:143-157 | all twelve series and timeStamps are emptied, and nothing else changes |
| PerformanceStore.PerformanceStore.SetMonitoringStatus | src/stores/performance.js:163-165 | only the monitoring flag changes |
| PerformanceStore.PerformanceStore.SetCurrentApp | src/stores/performance.js:172-178 | package and pid are recorded and the history is cleared |
| PerformanceStore.PerformanceStore.LatestCpuData | src/stores/performance.js:185-195 | the newest app and system CPU samples, 0 for empty series |
| PerformanceStore.PerformanceStore.LatestMemoryData | src/stores/performance.js:200-204 | the newest memory total, 0 for an empty series |
| PerformanceStore.PerformanceStore.LatestFpsData | src/stores/performance.js:209-213 | the newest fps, 0 for an empty series |
| PerformanceStore.PerformanceStore.LatestBatteryData | src/stores/performance.js:218-228 | the newest level and temperature, 0 for empty series |
| PerformanceStore.PerformanceStore.LatestNetworkData | src/stores/performance.js:233-243 | the newest download and upload, 0 for empty series |
| PerformanceMonitor.FirstPid | src/utils/performance/performanceMonitor.js:51-63 | a pid found is field 2 of a line naming the package; None exactly when no line qualifies |
| PerformanceMonitor.FirstPidIsFirst | src/utils/performance/performanceMonitor.js:52-59 | the first qualifying line gives the pid |
| PerformanceMonitor.GetPid | src/utils/performance/performanceMonitor.js:39-68 | the search loop gives PidOf of the `ps` output |
| PerformanceMonitor.RoundPoints | src/utils/performance/performanceMonitor.js:205-260 | a round feeds ten points |
| PerformanceMonitor.RoundPointsSections | src/utils/performance/performanceMonitor.js:209-260 | the points are the five collectors' sections, in the source's order |
| PerformanceMonitor.RoundPointsFeedEachOnce | src/utils/performance/performanceMonitor.js:209-260 | point i goes to the i-th fed metric |
| PerformanceMonitor.Feed | src/utils/performance/performanceMonitor.js:209-260 | feeding points keeps every series present |
| PerformanceMonitor.FeedAppend | src/utils/performance/performanceMonitor.js:209-260 | feeding two runs of points is feeding one after the other |
| PerformanceMonitor.FeedPair | src/utils/performance/performanceMonitor.js:209-260 | feeding a pair is two addDataPoint calls |
| PerformanceMonitor.FeedPushesEachOnce | src/utils/performance/performanceMonitor.js:209-260 | points for distinct metrics push each metric's sample once and touch no other series |
| PerformanceMonitor.NotFedAgain | src/utils/performance/performanceMonitor.js:209-260 | with distinct metrics, the first point's metric is not fed again |
| PerformanceMonitor.SampleForAbsent | src/utils/performance/performanceMonitor.js:209-260 | a metric with no point has no sample |
| PerformanceMonitor.RoundStep | src/utils/performance/performanceMonitor.js:205-260 | a round keeps every series present |
| PerformanceMonitor.RoundAddsOnePerSeries | src/utils/performance/performanceMonitor.js:205-260 | a round pushes one timestamp and exactly one sample (the value or null) to each fed series; gpuUsage, diskUsage and the rest are unchanged |
| PerformanceMonitor.FeedFedMetrics | src/utils/performance/performanceMonitor.js:209-260 | one point per fed metric pushes each fed series once |
| PerformanceMonitor.FeedSkipsUnfed | src/utils/performance/performanceMonitor.js:209-260 | gpuUsage and diskUsage are never fed |
| PerformanceMonitor.FedMetricsDistinct | src/utils/performance/performanceMonitor.js:209-260 | the ten fed metrics are distinct |
| PerformanceMonitor.FeedAt | src/utils/performance/performanceMonitor.js:209-260 | each point's sample ends up in its own series |
| PerformanceMonitor.FeedUntouched | src/utils/performance/performanceMonitor.js:209-260 | a metric with no point is unchanged |
| PerformanceMonitor.SampleForAt | src/utils/performance/performanceMonitor.js:209-260 | with distinct metrics, point i's sample is the one found for its metric |
| PerformanceMonitor.Nulls | src/utils/performance/performanceMonitor.js:324-326 | n nulls |
| PerformanceMonitor.Pad | src/utils/performance/performanceMonitor.js:315-327 | padding one series keeps every series present |
| PerformanceMonitor.PadAll | src/utils/performance/performanceMonitor.js:315-328 | padding the checked series keeps every series present |
| PerformanceMonitor.PadAllPads | src/utils/performance/performanceMonitor.js:315-328 | a checked series shorter than the target gets nulls up to it; the others are unchanged |
| PerformanceMonitor.PadWithNulls | src/utils/performance/performanceMonitor.js:316-325 | pushing diff nulls onto a series leaves it followed by exactly diff nulls |
| PerformanceMonitor.PadToLength | src/utils/performance/performanceMonitor.js:315-328 | the loop over the keys leaves the history that PadAll describes: the short listed series padded with nulls, everything else as it was |
| PerformanceMonitor.NothingToPad | src/utils/performance/performanceMonitor.js:309-311 | when no series is short, nothing changes |
| PerformanceMonitor.Aligned | src/utils/performance/performanceMonitor.js:288-330 | alignment keeps every series present |
| PerformanceMonitor.RoundKeepsAlignment | src/utils/performance/performanceMonitor.js:205-263 | series as long as timeStamps before a round stay so after it |
| PerformanceMonitor.AddCpuPoints | src/utils/performance/performanceMonitor.js:209-216 | the store is fed the two CPU points: values, or nulls for a failed collector |
| PerformanceMonitor.AddMemoryPoints | src/utils/performance/performanceMonitor.js:219-230 | the store is fed the two memory points |
| PerformanceMonitor.AddBatteryPoints | src/utils/performance/performanceMonitor.js:233-240 | the store is fed the two battery points |
| PerformanceMonitor.AddNetworkPoints | src/utils/performance/performanceMonitor.js:243-250 | the store is fed the two network points |
| PerformanceMonitor.AddFpsPoints | src/utils/performance/performanceMonitor.js:253-260 | the store is fed the two fps points |
| PerformanceMonitor.PerformanceMonitor.constructor | src/utils/performance/performanceMonitor.js:15-23 | not running, interval 1000, no package, no pid, no store, count 0 |
| PerformanceMonitor.PerformanceMonitor.Init | src/utils/performance/performanceMonitor.js:29-32 | init attaches the store and changes nothing else |
| PerformanceMonitor.PerformanceMonitor.SetIntervalTime | src/utils/performance/performanceMonitor.js:74-87 | values below 500 change nothing; on a stopped monitor only the interval changes, and the store and collectors are untouched; a running monitor is stopped and restarted: with no pid found it ends stopped with the store no longer monitoring, otherwise it runs again with the found pid, a cleared history and reset collectors |
| PerformanceMonitor.PerformanceMonitor.ResetCollectors | src/utils/performance/performanceMonitor.js:93-99 | the network, fps and battery records are reset and the count is 0 |
| PerformanceMonitor.PerformanceMonitor.Start | src/utils/performance/performanceMonitor.js:107-154 | true exactly when there is a store, the monitor is not running, there is a package, and a pid is given or found. Early refusals change nothing, and no refusal touches the collectors. Success records the app, clears the history, resets the collectors and starts running |
| PerformanceMonitor.PerformanceMonitor.Stop | src/utils/performance/performanceMonitor.js:159-171 | the ticker is cleared, running is off, and the store's monitoring flag is off |
| PerformanceMonitor.PerformanceMonitor.CollectPerformanceData | src/utils/performance/performanceMonitor.js:178-263 | when not running, nothing happens; otherwise the count grows by one and the store becomes the aligned round |
| PerformanceMonitor.PerformanceMonitor.AddRound | src/utils/performance/performanceMonitor.js:209-260 | the store is fed the round's ten points in order |
| PerformanceMonitor.PerformanceMonitor.CheckDataAlignment | src/utils/performance/performanceMonitor.js:288-330 | the store's history becomes Aligned of the old |
| ForegroundAppCollector.FirstCandidateIsFirstTaken | src/utils/performance/collectors/foregroundAppCollector.js:80-101 | a candidate comes from the first pattern that matched and passed its check; none exactly when no pattern did |
| ForegroundAppCollector.CandidateOf | src/utils/performance/collectors/foregroundAppCollector.js:64-191 | blank output gives no candidate |
| ForegroundAppCollector.GetForegroundAppBy | src/utils/performance/collectors/foregroundAppCollector.js:64-191 | the pattern loop with early return gives CandidateOf of the way's output |
| ForegroundAppCollector.CandidateChecked | src/utils/performance/collectors/foregroundAppCollector.js:87-90 | a candidate passed its way's package check: the focus way also rejects `null` and `StatusBar` |
| ForegroundAppCollector.ActivityNameShape | src/utils/performance/collectors/foregroundAppCollector.js:93 | the activity name is `pkg/activity`, or just `pkg` without an activity part |
| ForegroundAppCollector.LabelPatternGroups | src/utils/performance/collectors/foregroundAppCollector.js:22 | the label pattern captures one run of characters that are neither commas nor spaces |
| ForegroundAppCollector.AppDisplayName | src/utils/performance/collectors/foregroundAppCollector.js:13-32 | a non-empty package gives a non-empty name; the name differs from the package only when it is the `label=` value of a non-blank dump, and a non-blank dump whose label differs from the package always gives that label |
| ForegroundAppCollector.AppPid | src/utils/performance/collectors/foregroundAppCollector.js:39-58 | a pid exactly when the package is given and the output has two fields; it is field 2 |
| ForegroundAppCollector.CollectForegroundApp | src/utils/performance/collectors/foregroundAppCollector.js:199-276 | the loop over the ways with early break gives ForegroundOf |
| ForegroundAppCollector.ActivityWins | src/utils/performance/collectors/foregroundAppCollector.js:202-225 | a package from the resumed-activity way is the answer |
| ForegroundAppCollector.FocusIsLastResort | src/utils/performance/collectors/foregroundAppCollector.js:202-225 | the focus way answers only when both activity ways gave nothing |
| ForegroundAppCollector.NothingFound | src/utils/performance/collectors/foregroundAppCollector.js:227-236 | the all-null record is returned exactly when no way yields a package |
| ForegroundAppCollector.FoundAppFields | src/utils/performance/collectors/foregroundAppCollector.js:239-264 | a found app has its package, a non-empty name that is the dump's label exactly when that label differs from the package (else the package), its pid and the system-prefix test |
| ForegroundAppCollector.SystemPrefixNeedsDot | src/utils/performance/collectors/foregroundAppCollector.js:239-243 | the system test is a prefix test with the dot: `com.android.settings` is a system app, `com.androidx.demo` is not |
| DeviceInfoService.JsRem | src/utils/deviceInfoService.js:114-115 | JavaScript's `%` keeps the dividend's sign |
| DeviceInfoService.FormatUptime | src/utils/deviceInfoService.js:110-117 | unknown exactly for empty text or text parseInt cannot read |
| DeviceInfoService.UptimeDecomposes | src/utils/deviceInfoService.js:110-117 | for a count ≥ 0, days·86400 + hours·3600 + minutes·60 + the leftover seconds is the count, with hours < 24 and minutes < 60 |
| DeviceInfoService.MixedRadix | src/utils/deviceInfoService.js:113-115 | the days/hours/minutes arithmetic is a mixed-radix decomposition |
| DeviceInfoService.NegativeUptime | src/utils/deviceInfoService.js:113-115 | a negative count gives non-positive fields |
| DeviceInfoService.FormatCpuFreq | src/utils/deviceInfoService.js:103-107 | unknown exactly for missing, `未知`, unparsable or zero input; otherwise kHz/1000 rounded to whole MHz |
| DeviceInfoService.CpuFreqMonotone | src/utils/deviceInfoService.js:103-107 | a higher reading never shows as a lower frequency |
| DeviceInfoService.PhysicalSizeGroups | src/utils/deviceInfoService.js:98 | the resolution pattern captures the two numbers |
| DeviceInfoService.Resolution | src/utils/deviceInfoService.js:96-100 | unknown exactly when there is no `Physical size:` match; otherwise `WxH` |
| DeviceInfoService.ResolutionNeedsTag | src/utils/deviceInfoService.js:96-100 | a resolution is reported only from output that contains `Physical size: ` |
| DeviceInfoService.Reading | src/utils/deviceInfoService.js:265-274 | a non-zero reading came from a match |
| DeviceInfoService.GetBatteryInfo | src/utils/deviceInfoService.js:256-281 | empty output gives zeros; the percentage is the number after `level:`, voltage = raw/10⁶ after `voltage:` and temperature = raw/10 after `temperature:`, each 0 when missing |
| DeviceInfoService.BatteryFieldIsTagged | src/utils/deviceInfoService.js:265-274 | a non-zero field was read from digits written after its own tag |
| DeviceInfoService.StoragePatternGroups | src/utils/deviceInfoService.js:292 | the storage pattern captures sizes as digits and a unit, then the percentage |
| DeviceInfoService.StorageMatch | src/utils/deviceInfoService.js:292-295 | a match has five captures, and its numbers are digits |
| DeviceInfoService.GetStorageInfo | src/utils/deviceInfoService.js:287-308 | no output or no match gives {0G, 0G, 0}; otherwise the total and used are sizes as df prints them |
| DeviceInfoService.StorageReadsMatch | src/utils/deviceInfoService.js:295-301 | the used rate is the number of the captured digits |
| DeviceInfoService.WifiPatternGroups | src/utils/deviceInfoService.js:210-222 | each Wi-Fi pattern captures one run |
| DeviceInfoService.StripDoubleQuotes | src/utils/deviceInfoService.js:227 | the result has no `"` and is the text itself when it had none |
| DeviceInfoService.FirstLineWith | src/utils/deviceInfoService.js:224 | the line found is the first containing the text; none when no line does |
| DeviceInfoService.WifiByStatus | src/utils/deviceInfoService.js:207-215 | a name from `cmd wifi status` has no quote |
| DeviceInfoService.WifiByDump | src/utils/deviceInfoService.js:217-234 | a name from `dumpsys wifi` has no quote |
| DeviceInfoService.GetWifiInfo | src/utils/deviceInfoService.js:203-250 | the loop over the ways with early return gives WifiName |
| DeviceInfoService.WifiNameOrder | src/utils/deviceInfoService.js:238-249 | the name is never empty; the status way wins when it answers, the dump way when only it answers, and both silent gives `未知` |
| DeviceInfoService.WifiNameUnquoted | src/utils/deviceInfoService.js:203-250 | whichever way answers, the name has no `"` |
| DeviceInfoService.BatteryColor | src/utils/deviceInfoService.js:351-359 | green exactly from 70, red exactly below 30 |
| DeviceInfoService.TemperatureColor | src/utils/deviceInfoService.js:366-374 | green exactly up to 30, red exactly above 40 |
| DeviceInfoService.ProgressColor | src/utils/deviceInfoService.js:381-389 | green exactly up to 70, red exactly above 90 |
| DeviceInfoService.BatteryColorMonotone | src/utils/deviceInfoService.js:351-359 | less charge is never shown as less alarming |
| DeviceInfoService.TemperatureColorMonotone | src/utils/deviceInfoService.js:366-374 | a hotter battery is never shown as less alarming |
| DeviceInfoService.ProgressColorMonotone | src/utils/deviceInfoService.js:381-389 | a fuller bar is never shown as less alarming |
| DeviceInfoService.HexDistinct | src/utils/deviceInfoService.js:351-389 | the three colours are three different codes |
| AdbManager.Execute | src/utils/adbManager.js:12-39 | no device gives ""; so does a command whose spawner (the shell protocol when supported, else the none protocol) fails; otherwise that spawner's output |
| AdbManager.AdbManager.constructor | src/utils/adbManager.js:1 | the slot starts empty |
| AdbManager.AdbManager.SetAdbInstance | src/utils/adbManager.js:3-5 | the slot holds the given device |
| AdbManager.AdbManager.GetAdbInstance | src/utils/adbManager.js:7-9 | what was last stored |
| AdbManager.AdbManager.ExecuteCommand | src/utils/adbManager.js:12-39 | Execute on the stored device, "" when none is stored |
| AdbManager.FailureLooksDisconnected | src/utils/adbManager.js:16-38 | a device whose spawner for the command fails answers "" like no device; the other spawner is never tried |
| AdbManager.Scale | src/utils/adbManager.js:43-53 | every unit scales by at least 1 |
| AdbManager.FormatSize | src/utils/adbManager.js:43-53 | B below 1024, KB below 1024², MB below 1024³, GB above (each an iff); bytes are raw; otherwise the quotient to within 0.005 |
| AdbManager.ScaledSizeInRange | src/utils/adbManager.js:46-49 | above bytes and below GB, the number shown lies in [1, 1024] |
| AdbManager.KilobyteCarry | src/utils/adbManager.js:46-47 | 1048575 bytes show as 1024.00 KB |
| AssetsAdbManager.Execute | src/assets/js/adbManager.js:15-41 | undefined exactly without a device; "" for a command that fails; otherwise the output |
| AssetsAdbManager.AdbManager.constructor | src/assets/js/adbManager.js:4 | the slot starts null |
| AssetsAdbManager.AdbManager.SetAdbInstance | src/assets/js/adbManager.js:6-8 | the slot holds the given device |
| AssetsAdbManager.AdbManager.GetAdbInstance | src/assets/js/adbManager.js:10-12 | what was last stored, null before |
| AssetsAdbManager.AdbManager.ExecuteCommand | src/assets/js/adbManager.js:15-41 | undefined exactly when no device is stored |
| AssetsAdbManager.CopiesAgreeWhenConnected | src/assets/js/adbManager.js:15-41 | on a connected device without the shell protocol the two copies agree; without a device they differ ("" against undefined) |
| ScrcpyControl.Clamp | src/utils/eventHandler.js:47-48 | lodash clamp: within the bounds the value is kept, otherwise the nearer bound |
| ScrcpyControl.ViewFraction | src/pages/scrcpyShow/ScrcpyLogic.js:439-445 | the clamped view fraction lies in [0, 1] |
| ScrcpyControl.MouseButton | src/utils/eventHandler.js:21-27 | the table gives a button exactly for indices 0 to 4 |
| ScrcpyControl.Keys | src/pages/scrcpyShow/ScrcpyLogic.js:629-668 | key messages wrapped element by element |
| ScrcpyControl.Touches | src/utils/eventHandler.js:116-118 | touch messages wrapped element by element |
| ScrcpyControl.TouchesSnoc | src/utils/eventHandler.js:116-118 | wrapping one more touch message adds one message |
| ScrcpyLogic.AdjustPositionForRotation | src/pages/scrcpyShow/ScrcpyLogic.js:466-487 | the unit square maps into itself; rotations other than 1, 2 and 3 leave the point alone |
| ScrcpyLogic.RotationsUndo | src/pages/scrcpyShow/ScrcpyLogic.js:466-487 | rotations 1 and 3 undo each other, and rotation 2 undoes itself |
| ScrcpyLogic.QuarterTurnsCompose | src/pages/scrcpyShow/ScrcpyLogic.js:466-487 | two quarter turns make a half turn |
| ScrcpyLogic.ScaleWithin | src/pages/scrcpyShow/ScrcpyLogic.js:448-449 | a fraction of a length stays within the length |
| ScrcpyLogic.ClientPositionToDevicePosition | src/pages/scrcpyShow/ScrcpyLogic.js:420-457 | neither canvas nor container gives (0, 0); with the canvas, the position lies in [0, w−1]×[0, h−1] |
| ScrcpyLogic.ScaledInVideo | src/pages/scrcpyShow/ScrcpyLogic.js:448-449 | a unit-square point scaled to the video lies within it |
| ScrcpyLogic.ContainerPositionInVideo | src/pages/scrcpyShow/ScrcpyLogic.js:437-451 | through the container, the position lies in [0, w]×[0, h] |
| ScrcpyLogic.UnrotatedKeepsFraction | src/pages/scrcpyShow/ScrcpyLogic.js:420-435 | unrotated, a pointer inside the canvas lands at the same fraction of the video, clamped to the last pixel |
| ScrcpyLogic.LowBit | src/pages/scrcpyShow/ScrcpyLogic.js:72-73 | `rotation & 1` is 0 or 1 |
| ScrcpyLogic.NextAspectRatio | src/pages/scrcpyShow/ScrcpyLogic.js:403-410 | a portrait video records width/height in [0, 1); otherwise the old ratio is kept |
| ScrcpyLogic.WidthFor | src/pages/scrcpyShow/ScrcpyLogic.js:403-410 | NaN exactly when no ratio is recorded; otherwise a whole number within 0.5 of (height−145)·ratio |
| ScrcpyLogic.PortraitWidthFits | src/pages/scrcpyShow/ScrcpyLogic.js:403-410 | a portrait ratio gives a width no larger than the available height |
| ScrcpyLogic.ScrcpySession.constructor | src/pages/scrcpyShow/ScrcpyLogic.js:24-33 | size 0×0, rotation 0, no ratio, no client, nothing sent |
| ScrcpyLogic.ScrcpySession.SetClient | src/pages/scrcpyShow/ScrcpyLogic.js:151-162 | only the client changes |
| ScrcpyLogic.ScrcpySession.SetVideoSize | src/pages/scrcpyShow/ScrcpyLogic.js:205-212 | only the video size changes |
| ScrcpyLogic.ScrcpySession.RotatedWidth | src/pages/scrcpyShow/ScrcpyLogic.js:72 | the height when the rotation is odd, else the width |
| ScrcpyLogic.ScrcpySession.RotatedHeight | src/pages/scrcpyShow/ScrcpyLogic.js:73 | the width when the rotation is odd, else the height |
| ScrcpyLogic.ScrcpySession.CalculateWidth | src/pages/scrcpyShow/ScrcpyLogic.js:403-410 | the ratio becomes NextAspectRatio of the old one, and the width is WidthFor it |
| ScrcpyLogic.ScrcpySession.SwapWidthHeight | src/pages/scrcpyShow/ScrcpyLogic.js:391-396 | a wider-than-tall pair gives [height−145, width], else [width, height−145] |
| ScrcpyLogic.ScrcpySession.UnrotatedSize | src/pages/scrcpyShow/ScrcpyLogic.js:27 | the page never turns the video, so the rotated size is the size |
| ScrcpyLogic.ScrcpySession.TouchFor | src/pages/scrcpyShow/ScrcpyLogic.js:534-563 | pointer Finger, the event's buttons, pressure 0 exactly when no button is held, and the mapped button or Primary |
| ScrcpyLogic.ScrcpySession.InjectTouch | src/pages/scrcpyShow/ScrcpyLogic.js:534-563 | one message is sent exactly when a client with a controller is connected |
| ScrcpyLogic.ScrcpySession.HandlePointerDown | src/pages/scrcpyShow/ScrcpyLogic.js:569-573 | a Down touch |
| ScrcpyLogic.ScrcpySession.HandlePointerMove | src/pages/scrcpyShow/ScrcpyLogic.js:579-592 | HoverMove without buttons, Move with them |
| ScrcpyLogic.ScrcpySession.HandlePointerUp | src/pages/scrcpyShow/ScrcpyLogic.js:598-601 | an Up touch |
| ScrcpyLogic.ScrcpySession.HandlePointerLeave | src/pages/scrcpyShow/ScrcpyLogic.js:607-613 | an Up touch only while a button is held |
| ScrcpyLogic.ScrcpySession.HandleKeyCode | src/pages/scrcpyShow/ScrcpyLogic.js:629-668 | the key messages are sent when connected; it throws when there are messages and no client, or neither an event nor a code |
| ScrcpyLogic.MoveAction | src/pages/scrcpyShow/ScrcpyLogic.js:583-589 | HoverMove exactly when no button is held, else Move |
| ScrcpyLogic.KeyMessages | src/pages/scrcpyShow/ScrcpyLogic.js:629-668 | undefined exactly when there is neither an event nor a key code |
| ScrcpyLogic.VirtualPress | src/pages/scrcpyShow/ScrcpyLogic.js:629-668 | a virtual button is Down then Up, with no repeat |
| ScrcpyLogic.PhysicalKey | src/pages/scrcpyShow/ScrcpyLogic.js:629-668 | a mapped, not-prevented keyboard event is one Down (keydown) or Up |
| ScrcpyLogic.IgnoredKeys | src/pages/scrcpyShow/ScrcpyLogic.js:629-668 | an unmapped key or a prevented event sends nothing |
| EventHandler.ScrcpyController.constructor | src/utils/eventHandler.js:29-38 | the client, the hover helper and the screen size are recorded, and nothing is sent |
| EventHandler.ScrcpyController.AdjustPositionForRotation | src/utils/eventHandler.js:57-77 | the unit square maps into itself |
| EventHandler.ScrcpyController.ClientPositionToDevicePosition | src/utils/eventHandler.js:40-55 | no container gives (0, 0) |
| EventHandler.ScrcpyController.AdjustAgrees | src/utils/eventHandler.js:57-77 | the swap-then-flip form equals the page's mapping for every rotation |
| EventHandler.ScrcpyController.PositionAgrees | src/utils/eventHandler.js:40-55 | the mapping equals the page's when the page has no canvas, and lies within the video |
| EventHandler.ScrcpyController.TouchRequest | src/utils/eventHandler.js:98-114 | the pointer is Finger exactly for a mouse, else the event's id; pressure, buttons and size are carried over, and the button is mapped |
| EventHandler.ScrcpyController.InjectTouch | src/utils/eventHandler.js:98-119 | the helper's messages are sent in order when connected; otherwise it throws, exactly when there was a message to send |
| EventHandler.ScrcpyController.HandlePointerDown | src/utils/eventHandler.js:121-125 | the messages of a Down request |
| EventHandler.ScrcpyController.HandlePointerMove | src/utils/eventHandler.js:127-131 | HoverMove without buttons, Move with them |
| EventHandler.ScrcpyController.HandlePointerUp | src/utils/eventHandler.js:133-136 | the messages of an Up request |
| EventHandler.ScrcpyController.HandlePointerLeave | src/utils/eventHandler.js:138-142 | a HoverExit and then an Up, in that order, whatever the buttons |
| EventHandler.ScrcpyController.HandleKeyCode | src/utils/eventHandler.js:148-158 | one key message when the code maps to a key and the client is connected; it throws when the key maps and there is no controller |
| EventHandler.KeyMessagesFor | src/utils/eventHandler.js:148-158 | at most one message, exactly when the code maps: that key, repeat 0 and NumLock on |
| EventHandler.KeysMatchPage | src/utils/eventHandler.js:148-158 | for a mapped, not-prevented event, the controller and the page send the same key and action |

## Left out

- I/O: the subprocess spawn, the stream read loop and the TextDecoder of
  `executeCommand` are left out. The shell is an oracle from command to its
  whole output.
- Timers and concurrency are left out:
  - the `setInterval` ticker and the one-second sleep of the CPU collector;
  - `Promise.allSettled`, which becomes given settled outcomes;
  - the `Promise.race` timeouts of the foreground-app collector;
  - overlapping asynchronous rounds.
- Within one snapshot, a command is taken to print one output.
- The catch paths of the collectors are left out. A command that throws
  reads as "", which every parser already handles. The monitor's catch path
  after a collector throws synchronously is left out.
- IEEE-754 arithmetic, Infinity, and BigInt→Number precision loss are left
  out; numbers are exact reals.
- String rendering is left out: `toLocaleTimeString`, the uptime, frequency
  and size texts, and `toFixed` as text. The store receives the time
  already formatted.
- Regex engines with backtracking or lazy quantifiers are oracles: the
  focus window in the FPS collector and the foreground-app patterns.
- NetworkCollector.InterfaceStatsOf: the interface-stats pattern is matched
  without backtracking. JavaScript could split a digit run between two
  `\s*\d+` columns on malformed lines; that is not modelled.
- `resetBatteryTemperature` is left out. It is a maintenance helper that is
  not on the collection path.
- The gfxinfo branch of `getSurfaceFlingerFrameData` is left out, because
  `collectFps` never reaches it. `parseGfxInfo` is modelled.
- Test helpers, `allPerformanceData`, and the `startMonitoring`,
  `stopMonitoring`, `setMonitoringInterval` and `initMonitor` exports are
  left out. They only call the modelled methods.
- PerformanceMonitor.PerformanceMonitor.SetIntervalTime: the source calls
  `start` without awaiting it, so the restart finishes after
  `setIntervalTime` returns. The model completes the restart before the
  method returns.
- PerformanceStore.PerformanceStore.SetMaxDataPoints: a bound between 0 and
  1 is accepted, as in the source. A push then keeps a non-empty series at
  its length, with the pushed value newest, and leaves an empty series
  empty. The contract states this as written.
- `getDeviceInfo` orchestration is left out: the parallel `getprop` calls
  and their fallbacks. So are `executeShellCommand`, `getCpuFrequencyData`
  and `getMemoryUsageData`, which are one read each, timestamped.
- Text.ParseFloat: exponent notation (`1e3`) is not read; parseFloat
  would read it as 1000. The tokens it reads are `/proc` counters and
  regex captures of `\d+` or `[\d.]+`, and none of them holds an exponent.
- AdbManager.FormatSize: a NaN or undefined size is not modelled.
- ScrcpyLogic.ClientPositionToDevicePosition requires rectangles with an
  area. A zero-size canvas or container makes the source divide by zero,
  which is not modelled. The same holds for
  EventHandler.ScrcpyController.ClientPositionToDevicePosition.
- `handleWheel` in both mirroring front ends is left out. So are
  `handleContextMenu`, `preventDefault`, `setPointerCapture`, and the
  keyboard-listener wiring `openKeyInput`/`handleKeyEvent`.
- The hover helper's own state is not modelled: its output is an oracle
  of the request.
- The scrcpy client start-up, the video decoder, the rendering, the style
  calculations and window resizing in `ScrcpyLogic.js` are left out. The
  canvas and container rectangles and the window height are parameters.
- `rotation` in `ScrcpyLogic.js` is never reassigned, so the session keeps
  it at 0.
- `eventHandler.js` reads its screen size from Vue references. These are
  taken to stay constant while the controller lives.
- `getRenderContainer` and `getScreenSize` are imported from
  `src/utils/adbManager.js`, which does not define them. The container and
  the screen size are constructor and event parameters instead.
