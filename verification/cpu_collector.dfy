/**
  * The CPU collector: two snapshots of the process's and the system's CPU
  * tick counters, one second apart, turned into the share of the elapsed
  * ticks the process used and the share the system was busy, in percent.
  *
  * The shell is read through two oracles, `before` and `after`, one per
  * snapshot: within one snapshot a command gives one output. The wait
  * between the snapshots is not modelled. Ticks are JavaScript numbers
  * from parseFloat, so they may be NaN.
  */
module CpuCollector {
  import opened Util
  import opened Text

  function ProcessCommand(pid: string): string
  {
    "cat /proc/" + pid + "/stat"
  }

  const SystemCommand := "cat /proc/stat | grep ^cpu "

  /** getProcessCpuStat on the text of /proc/<pid>/stat: utime + stime +
      cutime + cstime, the tokens at indices 13 to 16; 0 when the output is
      blank or has fewer than 17 tokens. */
  function ProcessCpuStat(result: string): (r: Num)
    ensures IsBlank(result) || |Fields(result)| < 17 ==> r == Fin(0.0)
  {
    if IsBlank(result) then Fin(0.0)
    else
      var tokens := Fields(result);
      if |tokens| < 17 then Fin(0.0)
      else Add(Add(Add(ParseFloat(tokens[13]), ParseFloat(tokens[14])), ParseFloat(tokens[15])), ParseFloat(tokens[16]))
  }

  /** The sum of f over tokens[lo..hi], added from lo up, starting at 0. */
  function SumTokens(f: string -> Num, tokens: seq<string>, lo: nat, hi: nat): Num
    requires lo <= hi <= |tokens|
    decreases hi - lo
  {
    if hi == lo then Fin(0.0) else Add(SumTokens(f, tokens, lo, hi - 1), f(tokens[hi - 1]))
  }

  /** The sum is a number exactly when every token's value is. */
  lemma {:induction false} SumTokensFinite(f: string -> Num, tokens: seq<string>, lo: nat, hi: nat)
    requires lo <= hi <= |tokens|
    ensures SumTokens(f, tokens, lo, hi).Fin? <==> forall i :: lo <= i < hi ==> f(tokens[i]).Fin?
    decreases hi - lo
  {
    if hi > lo {
      SumTokensFinite(f, tokens, lo, hi - 1);
    }
  }

  /** getTotalCpuStat on the `cpu` line of /proc/stat: the sum of the
      seven counters after the label; 0 when the output is blank or has
      fewer than eight tokens. */
  function TotalCpuStat(result: string): (r: Num)
    ensures IsBlank(result) || |Fields(result)| < 8 ==> r == Fin(0.0)
  {
    if IsBlank(result) then Fin(0.0)
    else
      var tokens := Fields(result);
      if |tokens| < 8 then Fin(0.0) else SumTokens(ParseFloat, tokens, 1, 8)
  }

  /** getTotalCpuStat. */
  method GetTotalCpuStat(exec: string -> string) returns (total: Num)
    ensures total == TotalCpuStat(exec(SystemCommand))
  {
    var result := exec(SystemCommand);
    if IsBlank(result) {
      return Fin(0.0);
    }
    var tokens := Fields(result);
    if |tokens| < 8 {
      return Fin(0.0);
    }
    var totalCpuTime := Fin(0.0);
    for i := 1 to 8
      invariant totalCpuTime == SumTokens(ParseFloat, tokens, 1, i)
    {
      totalCpuTime := Add(totalCpuTime, ParseFloat(tokens[i]));
    }
    return totalCpuTime;
  }

  /** getIdleCpuStat: the token at index 4, the idle counter; 0 when the
      output is blank or has fewer than five tokens. */
  function IdleCpuStat(result: string): (r: Num)
    ensures IsBlank(result) || |Fields(result)| < 5 ==> r == Fin(0.0)
    ensures !IsBlank(result) && |Fields(result)| >= 5 ==> r == ParseFloat(Fields(result)[4])
  {
    if IsBlank(result) then Fin(0.0)
    else
      var tokens := Fields(result);
      if |tokens| < 5 then Fin(0.0) else ParseFloat(tokens[4])
  }

  /** Over output long enough, the process counter is the sum of the four
      time fields, and a number exactly when each of them parses. */
  lemma ProcessTicksRead(result: string)
    requires !IsBlank(result) && |Fields(result)| >= 17
    ensures var t := Fields(result);
            var r := ProcessCpuStat(result);
            && (r.Fin? <==> forall i :: 13 <= i < 17 ==> ParseFloat(t[i]).Fin?)
            && (r.Fin? ==> r.v == ParseFloat(t[13]).v + ParseFloat(t[14]).v + ParseFloat(t[15]).v + ParseFloat(t[16]).v)
  {
    var t := Fields(result);
    if forall i :: 13 <= i < 17 ==> ParseFloat(t[i]).Fin? {
    } else {
      var i :| 13 <= i < 17 && !ParseFloat(t[i]).Fin?;
      assert i == 13 || i == 14 || i == 15 || i == 16;
    }
  }

  /** Over output long enough, the system counter is a number exactly when
      each of the seven counters after the label parses. */
  lemma TotalTicksRead(result: string)
    requires !IsBlank(result) && |Fields(result)| >= 8
    ensures TotalCpuStat(result).Fin? <==> forall i :: 1 <= i < 8 ==> ParseFloat(Fields(result)[i]).Fin?
  {
    SumTokensFinite(ParseFloat, Fields(result), 1, 8);
  }

  /** One snapshot of the three counters. */
  datatype Snapshot = Snapshot(process: Num, total: Num, idle: Num)

  function SnapshotOf(pid: string, exec: string -> string): Snapshot
  {
    Snapshot(ProcessCpuStat(exec(ProcessCommand(pid))), TotalCpuStat(exec(SystemCommand)), IdleCpuStat(exec(SystemCommand)))
  }

  datatype CpuUsage = CpuUsage(appCpu: Num, systemCpu: Num)

  const NoUsage := CpuUsage(Fin(0.0), Fin(0.0))

  /** `Math.round(x * 100) / 100`; NaN stays NaN. */
  function Round2Num(x: Num): (r: Num)
    ensures r.Fin? <==> x.Fin?
    ensures x.Fin? ==> x.v - 0.005 < r.v <= x.v + 0.005
  {
    if x.Fin? then Fin(Round2(x.v)) else NaN
  }

  /** `a / b * 100` for b > 0. */
  function Percent(a: Num, b: real): (r: Num)
    requires b > 0.0
    ensures r.Fin? <==> a.Fin?
  {
    if a.Fin? then Fin(a.v / b * 100.0) else NaN
  }

  /** The percentages of collectCpuUsage from the two snapshots. */
  function Usage(first: Snapshot, second: Snapshot): CpuUsage
  {
    var processDiff := Sub(second.process, first.process);
    var totalDiff := Sub(second.total, first.total);
    if totalDiff.Fin? && totalDiff.v <= 0.0 then NoUsage
    else if totalDiff.NaN? then CpuUsage(NaN, NaN)
    else
      var active1 := Sub(first.total, first.idle);
      var active2 := Sub(second.total, second.idle);
      CpuUsage(Round2Num(Percent(processDiff, totalDiff.v)), Round2Num(Percent(Sub(active2, active1), totalDiff.v)))
  }

  /** collectCpuUsage as a function; "" is a missing pid. */
  function CpuUsageOf(pid: string, before: string -> string, after: string -> string): CpuUsage
  {
    if pid == "" then NoUsage else Usage(SnapshotOf(pid, before), SnapshotOf(pid, after))
  }

  /** collectCpuUsage. */
  method CollectCpuUsage(pid: string, before: string -> string, after: string -> string) returns (u: CpuUsage)
    ensures u == CpuUsageOf(pid, before, after)
  {
    if pid == "" {
      return NoUsage;
    }
    var processCpuTime1 := ProcessCpuStat(before(ProcessCommand(pid)));
    var totalCpuTime1 := GetTotalCpuStat(before);
    var idleCpuTime1 := IdleCpuStat(before(SystemCommand));
    var processCpuTime2 := ProcessCpuStat(after(ProcessCommand(pid)));
    var totalCpuTime2 := GetTotalCpuStat(after);
    var idleCpuTime2 := IdleCpuStat(after(SystemCommand));
    u := Usage(Snapshot(processCpuTime1, totalCpuTime1, idleCpuTime1), Snapshot(processCpuTime2, totalCpuTime2, idleCpuTime2));
  }

  // ---------------------------------------------------------------------
  // Properties

  /** Without a pid nothing is read: the result does not depend on the
      device. */
  lemma NoPidNoUsage(before: string -> string, after: string -> string, before': string -> string, after': string -> string)
    ensures CpuUsageOf("", before, after) == CpuUsageOf("", before', after') == NoUsage
  {
  }

  /** When the system's tick count did not grow, both percentages are 0
      and nothing is divided. */
  lemma NoElapsedTicks(first: Snapshot, second: Snapshot)
    requires first.total.Fin? && second.total.Fin? && second.total.v <= first.total.v
    ensures Usage(first, second) == NoUsage
  {
  }

  /** The app's share is 100 times the process ticks over the system
      ticks, to two decimals. */
  lemma AppShare(first: Snapshot, second: Snapshot)
    requires first.total.Fin? && second.total.Fin? && second.total.v > first.total.v
    requires first.process.Fin? && second.process.Fin?
    ensures var share := (second.process.v - first.process.v) / (second.total.v - first.total.v) * 100.0;
            var a := Usage(first, second).appCpu;
            a.Fin? && share - 0.005 < a.v <= share + 0.005
  {
  }

  /** The system's share is 100 times the busy (non-idle) ticks over all
      ticks, to two decimals. */
  lemma SystemShare(first: Snapshot, second: Snapshot)
    requires first.total.Fin? && second.total.Fin? && second.total.v > first.total.v
    requires first.idle.Fin? && second.idle.Fin?
    ensures var busy := (second.total.v - second.idle.v) - (first.total.v - first.idle.v);
            var share := busy / (second.total.v - first.total.v) * 100.0;
            var s := Usage(first, second).systemCpu;
            s.Fin? && share - 0.005 < s.v <= share + 0.005
  {
  }

  /** When the process's ticks grew by no more than the system's, its
      share lies in [0, 100]. */
  lemma AppShareBounded(first: Snapshot, second: Snapshot)
    requires first.total.Fin? && second.total.Fin? && second.total.v > first.total.v
    requires first.process.Fin? && second.process.Fin?
    requires 0.0 <= second.process.v - first.process.v <= second.total.v - first.total.v
    ensures var a := Usage(first, second).appCpu;
            a.Fin? && 0.0 <= a.v <= 100.0
  {
    var fraction := (second.process.v - first.process.v) / (second.total.v - first.total.v);
    FractionWithinUnit(second.process.v - first.process.v, second.total.v - first.total.v);
    var share := fraction * 100.0;
    assert 0.0 <= share <= 100.0;
    Round2Within(share, 0, 10000);
  }

  /** A part over a whole it does not exceed lies in [0, 1]. */
  lemma FractionWithinUnit(part: real, whole: real)
    requires 0.0 <= part <= whole && whole > 0.0
    ensures 0.0 <= part / whole <= 1.0
  {
    var q := part / whole;
    assert q * whole == part;
    assert (1.0 - q) * whole == whole - part;
  }

  /** The percentages are not clamped: a process counter that grew faster
      than the system's (counters read at different moments) gives more
      than 100 percent. */
  lemma NotClamped()
    ensures Usage(Snapshot(Fin(0.0), Fin(0.0), Fin(0.0)), Snapshot(Fin(300.0), Fin(100.0), Fin(0.0))).appCpu == Fin(300.0)
  {
    assert Round2(300.0) == 300.0 by {
      RoundOfInt(30000);
    }
    assert Percent(Fin(300.0), 100.0) == Fin(300.0);
  }

  /** A counter that does not parse makes the percentages NaN. */
  lemma UnreadableCounterIsNaN(first: Snapshot, second: Snapshot)
    requires second.total.Fin? && first.total.Fin? && second.total.v > first.total.v
    requires second.process.NaN?
    ensures Usage(first, second).appCpu.NaN?
  {
  }
}
