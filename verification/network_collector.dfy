/**
  * The network collector: resolves the app's uid, sums its byte counters
  * (per-uid statistics when the kernel has them, else the counters of the
  * Wi-Fi and mobile interfaces) and turns the change since the previous
  * round into upload and download rates in KB/s.
  *
  * The module-level record of the previous round is the class
  * `NetworkCollector`. Date.now() is the parameter `now` (milliseconds) and
  * each Math.random() draw is a parameter in [0, 1): `rUp` for the upload
  * value and `rDown` for the download value.
  */
module NetworkCollector {
  import opened Util
  import opened Text
  import opened Pattern

  const WifiInterface := "wlan0"
  const MobileInterface := "rmnet_ipa0"
  const FallbackInterfaces := ["rmnet0", "rmnet_data0", "rmnet1", "ccmni0"]
  const AlternativeWifi := ["wlan1", "eth0"]

  /** Rates outside [0, MaxRate] KB/s are replaced by synthetic values. */
  const MaxRate: real := 10000.0

  datatype Counters = Counters(rxBytes: int, txBytes: int)
  datatype Interfaces = Interfaces(wifi: string, mobile: string)
  datatype Rates = Rates(upload: real, download: real)

  // ---------------------------------------------------------------------
  // The app's uid

  function UidCommand(packageName: string): string
  {
    "dumpsys package " + packageName + " | grep userId="
  }

  const UidPattern := [Lit("userId="), Run(Digit, 1, false, true)]

  /** getAppUid: the digits after the first `userId=`, None when the
      output is blank or has no such number. */
  function AppUid(packageName: string, exec: string -> string): (uid: Option<string>)
    ensures uid.Some? ==> IsDigits(uid.value)
  {
    var result := exec(UidCommand(packageName));
    if IsBlank(result) then None else FirstGroup(result, UidPattern)
  }

  // ---------------------------------------------------------------------
  // Interfaces

  const DevCommand := "cat /proc/net/dev"

  /** The first of `names` that the text mentions. */
  function FirstMentioned(text: string, names: seq<string>): (r: Option<string>)
    ensures r.Some? ==> r.value in names && Contains(text, r.value)
    ensures r.None? ==> forall n :: n in names ==> !Contains(text, n)
  {
    if names == [] then None
    else if Contains(text, names[0]) then Some(names[0])
    else FirstMentioned(text, names[1..])
  }

  /** An interface name: the preferred one when the text mentions it, else
      the first mentioned alternative, else the preferred one anyway. */
  function Pick(text: string, preferred: string, alternatives: seq<string>): string
  {
    if Contains(text, preferred) then preferred
    else match FirstMentioned(text, alternatives)
      case Some(n) => n
      case None => preferred
  }

  /** detectNetworkInterfaces on the text of /proc/net/dev. */
  function InterfacesOf(result: string): Interfaces
  {
    if IsBlank(result) then Interfaces(WifiInterface, MobileInterface)
    else Interfaces(Pick(result, WifiInterface, AlternativeWifi), Pick(result, MobileInterface, FallbackInterfaces))
  }

  /** The interfaces chosen are always among the known names, an
      alternative is chosen only when the device lists it and the
      preferred name does not appear. */
  lemma InterfacesAreKnown(result: string)
    ensures var ifs := InterfacesOf(result);
            (ifs.wifi == WifiInterface || ifs.wifi in AlternativeWifi)
            && (ifs.mobile == MobileInterface || ifs.mobile in FallbackInterfaces)
            && (ifs.wifi != WifiInterface ==> Contains(result, ifs.wifi) && !Contains(result, WifiInterface))
            && (ifs.mobile != MobileInterface ==> Contains(result, ifs.mobile) && !Contains(result, MobileInterface))
  {
  }

  /** Among the alternatives, the earliest one in the list that the text
      mentions is chosen. */
  lemma {:induction false} FirstMentionedIsFirst(text: string, names: seq<string>, k: nat)
    requires k < |names| && Contains(text, names[k])
    requires forall j :: 0 <= j < k ==> !Contains(text, names[j])
    ensures FirstMentioned(text, names) == Some(names[k])
  {
    if k > 0 {
      FirstMentionedIsFirst(text, names[1..], k - 1);
    }
  }

  /** The loop that looks for the first mentioned alternative. */
  method FindMentioned(result: string, names: seq<string>) returns (r: Option<string>)
    ensures r == FirstMentioned(result, names)
  {
    var i := 0;
    while i < |names|
      invariant 0 <= i <= |names|
      invariant FirstMentioned(result, names) == FirstMentioned(result, names[i..])
    {
      assert names[i..][1..] == names[i + 1..];
      if Contains(result, names[i]) {
        return Some(names[i]);
      }
      i := i + 1;
    }
    return None;
  }

  /** detectNetworkInterfaces. */
  method DetectNetworkInterfaces(exec: string -> string) returns (ifs: Interfaces)
    ensures ifs == InterfacesOf(exec(DevCommand))
  {
    var result := exec(DevCommand);
    if IsBlank(result) {
      return Interfaces(WifiInterface, MobileInterface);
    }
    var wifiInterface := WifiInterface;
    if !Contains(result, wifiInterface) {
      var alt := FindMentioned(result, AlternativeWifi);
      if alt.Some? {
        wifiInterface := alt.value;
      }
    }
    var mobileInterface := MobileInterface;
    if !Contains(result, mobileInterface) {
      var alt := FindMentioned(result, FallbackInterfaces);
      if alt.Some? {
        mobileInterface := alt.value;
      }
    }
    return Interfaces(wifiInterface, mobileInterface);
  }

  function InterfaceCommand(interfaceName: string): string
  {
    "cat /proc/net/dev | grep " + interfaceName
  }

  /** `\s*\d+` repeated n times: columns that are skipped. */
  function Columns(n: nat): (p: seq<Elem>)
    ensures Groups(p) == []
  {
    if n == 0 then []
    else
      var column := [Run(Space, 0, false, false), Run(Digit, 1, false, false)];
      GroupsAppend(column, Columns(n - 1));
      column + Columns(n - 1)
  }

  /** `<name>:\s*(\d+)` then seven `\s*\d+` then `\s*(\d+)`: the received
      bytes (first column) and the sent bytes (ninth column). */
  function InterfacePattern(interfaceName: string): (p: seq<Elem>)
    ensures |Groups(p)| == 2 && Groups(p)[0] == Groups(p)[1] == Run(Digit, 1, false, true)
  {
    var head := [Lit(interfaceName + ":"), Run(Space, 0, false, false), Run(Digit, 1, false, true)];
    var tail := [Run(Space, 0, false, false), Run(Digit, 1, false, true)];
    GroupsAppend(head, Columns(7));
    GroupsAppend(head + Columns(7), tail);
    head + Columns(7) + tail
  }

  /** getInterfaceStats on the output of its grep command. */
  function InterfaceStatsOf(interfaceName: string, result: string): (c: Counters)
    ensures c.rxBytes >= 0 && c.txBytes >= 0
  {
    if IsBlank(result) then Counters(0, 0)
    else match Search(result, InterfacePattern(interfaceName))
      case None => Counters(0, 0)
      case Some(groups) =>
        SearchGroups(result, InterfacePattern(interfaceName));
        Counters(DigitsValue(groups[0]), DigitsValue(groups[1]))
  }

  /** The counters are what parseInt reads from the first and the ninth
      number after `<name>:`, and 0 when the pattern does not match. */
  lemma InterfaceStatsRead(interfaceName: string, result: string)
    requires !IsBlank(result)
    ensures var m := Search(result, InterfacePattern(interfaceName));
            var c := InterfaceStatsOf(interfaceName, result);
            && (m.None? ==> c == Counters(0, 0))
            && (m.Some? ==> |m.value| == 2 && IsDigits(m.value[0]) && IsDigits(m.value[1])
                            && ParseInt(m.value[0]) == Some(c.rxBytes) && ParseInt(m.value[1]) == Some(c.txBytes))
  {
    var pat := InterfacePattern(interfaceName);
    if Search(result, pat).Some? {
      SearchGroups(result, pat);
      var g := Search(result, pat).value;
      assert Fits(g[0], Groups(pat)[0]) && Fits(g[1], Groups(pat)[1]);
      ParseIntOfDigits(g[0]);
      ParseIntOfDigits(g[1]);
    }
  }

  function InterfaceStats(interfaceName: string, exec: string -> string): Counters
  {
    InterfaceStatsOf(interfaceName, exec(InterfaceCommand(interfaceName)))
  }

  // ---------------------------------------------------------------------
  // Per-uid statistics

  function StatsCommand(uid: string): string
  {
    "cat /proc/net/xt_qtaguid/stats | grep " + uid
  }

  /** What one line of the per-uid statistics adds: rx_bytes (sixth field)
      and tx_bytes (eighth field) of a line with at least eight fields,
      each only when parseInt finds a number. */
  function LineCounters(line: string): Counters
  {
    var fields := Fields(line);
    if |fields| >= 8 then
      Counters(match ParseInt(fields[5]) case Some(n) => n case None => 0,
               match ParseInt(fields[7]) case Some(n) => n case None => 0)
    else Counters(0, 0)
  }

  function Plus(a: Counters, b: Counters): Counters
  {
    Counters(a.rxBytes + b.rxBytes, a.txBytes + b.txBytes)
  }

  /** The sum of what `f` gives for each line. */
  function SumOver(f: string -> Counters, lines: seq<string>): Counters
  {
    if lines == [] then Counters(0, 0) else Plus(SumOver(f, lines[..|lines| - 1]), f(lines[|lines| - 1]))
  }

  lemma {:induction false} SumOverAppend(f: string -> Counters, a: seq<string>, b: seq<string>)
    ensures SumOver(f, a + b) == Plus(SumOver(f, a), SumOver(f, b))
    decreases |b|
  {
    if b == [] {
      assert a + b == a;
    } else {
      var b' := b[..|b| - 1];
      assert (a + b)[..|a + b| - 1] == a + b';
      SumOverAppend(f, a, b');
    }
  }

  /** The counters of a list of lines: the sum over its lines. */
  function SumLines(lines: seq<string>): Counters
  {
    SumOver(LineCounters, lines)
  }

  /** Each line contributes on its own: the sum over two batches of lines
      is the sum of their sums. */
  lemma SumLinesAppend(a: seq<string>, b: seq<string>)
    ensures SumLines(a + b) == Plus(SumLines(a), SumLines(b))
  {
    SumOverAppend(LineCounters, a, b);
  }

  /** Adding one more line adds what that line contributes. */
  lemma SumLinesSnoc(lines: seq<string>, line: string)
    ensures SumLines(lines + [line]) == Plus(SumLines(lines), LineCounters(line))
  {
    assert (lines + [line])[..|lines|] == lines;
  }

  lemma SumLinesPrefix(lines: seq<string>, i: nat)
    requires i < |lines|
    ensures SumLines(lines[..i + 1]) == Plus(SumLines(lines[..i]), LineCounters(lines[i]))
  {
    assert lines[..i + 1][..i] == lines[..i];
  }

  /** A line without eight fields, or whose counters are not numbers, adds
      nothing. */
  lemma ShortLinesAddNothing(lines: seq<string>, line: string)
    requires |Fields(line)| < 8 || (ParseInt(Fields(line)[5]).None? && ParseInt(Fields(line)[7]).None?)
    ensures SumLines(lines + [line]) == SumLines(lines)
  {
    SumLinesSnoc(lines, line);
  }

  /** The fields of one line of the per-uid statistics. */
  method ReadStatLine(line: string) returns (rxBytes: int, txBytes: int)
    ensures Counters(rxBytes, txBytes) == LineCounters(line)
  {
    rxBytes, txBytes := 0, 0;
    var fields := Fields(line);
    if |fields| >= 8 {
      var rx := ParseInt(fields[5]);
      var tx := ParseInt(fields[7]);
      if rx.Some? {
        rxBytes := rx.value;
      }
      if tx.Some? {
        txBytes := tx.value;
      }
    }
  }

  /** The loop that sums the per-uid statistics. */
  method SumStatLines(lines: seq<string>) returns (c: Counters)
    ensures c == SumLines(lines)
  {
    var total := Counters(0, 0);
    var i := 0;
    while i < |lines|
      invariant 0 <= i <= |lines|
      invariant total == SumLines(lines[..i])
    {
      var rxBytes, txBytes := ReadStatLine(lines[i]);
      total := Plus(total, Counters(rxBytes, txBytes));
      SumLinesPrefix(lines, i);
      i := i + 1;
    }
    assert lines[..|lines|] == lines;
    return total;
  }

  /** getNetworkStats on the per-uid statistics, when there are some. */
  function NetworkStatsOf(uid: Option<string>, exec: string -> string): Counters
  {
    if uid.None? || uid.value == "" then Counters(0, 0)
    else
      var result := exec(StatsCommand(uid.value));
      if !IsBlank(result) then SumLines(SplitOn(Trim(result), '\n'))
      else
        var ifs := InterfacesOf(exec(DevCommand));
        Plus(InterfaceStats(ifs.wifi, exec), InterfaceStats(ifs.mobile, exec))
  }

  /** getNetworkStats. */
  method GetNetworkStats(uid: Option<string>, exec: string -> string) returns (c: Counters)
    ensures c == NetworkStatsOf(uid, exec)
  {
    if uid.None? || uid.value == "" {
      return Counters(0, 0);
    }
    var result := exec(StatsCommand(uid.value));
    if !IsBlank(result) {
      var perUid := SumStatLines(SplitOn(Trim(result), '\n'));
      return perUid;
    }
    var interfaces := DetectNetworkInterfaces(exec);
    var wifiStats := InterfaceStats(interfaces.wifi, exec);
    var mobileStats := InterfaceStats(interfaces.mobile, exec);
    return Plus(wifiStats, mobileStats);
  }

  // ---------------------------------------------------------------------
  // Rates

  /** The record of the previous round; timestamp 0 means no baseline. */
  datatype NetState = NetState(rxBytes: int, txBytes: int, timestamp: int)

  /** The synthetic rates returned when there is nothing to measure:
      upload `floor(r * 50) + 10`, download `floor(r * 100) + 50`. */
  function SyntheticUpload(r: real): real
  {
    ((r * 50.0).Floor + 10) as real
  }

  function SyntheticDownload(r: real): real
  {
    ((r * 100.0).Floor + 50) as real
  }

  lemma SyntheticRanges(rUp: real, rDown: real)
    requires 0.0 <= rUp < 1.0 && 0.0 <= rDown < 1.0
    ensures 10.0 <= SyntheticUpload(rUp) <= 59.0
    ensures 50.0 <= SyntheticDownload(rDown) <= 149.0
  {
  }

  /** A measured rate in KB/s, rounded to two decimals. */
  function Rate(diffBytes: int, timeDiff: real): real
    requires timeDiff > 0.0
  {
    Round2(diffBytes as real / 1024.0 / timeDiff)
  }

  /** A measured rate, replaced by a synthetic one when it is negative or
      above MaxRate. */
  function Checked(measured: real, synthetic: real): real
  {
    if measured < 0.0 || measured > MaxRate then synthetic else measured
  }

  /** What collectNetworkUsage does once it has the current counters. */
  function RatesStep(prev: NetState, current: Counters, now: int, rUp: real, rDown: real): (NetState, Rates)
  {
    var synthetic := Rates(SyntheticUpload(rUp), SyntheticDownload(rDown));
    var next := NetState(current.rxBytes, current.txBytes, now);
    if prev.timestamp == 0 then (next, synthetic)
    else
      var timeDiff := (now - prev.timestamp) as real / 1000.0;
      if timeDiff <= 0.0 then (prev, synthetic)
      else
        var download := Checked(Rate(current.rxBytes - prev.rxBytes, timeDiff), SyntheticDownload(rDown));
        var upload := Checked(Rate(current.txBytes - prev.txBytes, timeDiff), SyntheticUpload(rUp));
        (next, Rates(upload, download))
  }

  /** collectNetworkUsage as a function of the record before the call. */
  function NetworkStep(prev: NetState, packageName: string, exec: string -> string, now: int,
                       rUp: real, rDown: real): (NetState, Rates)
  {
    var synthetic := Rates(SyntheticUpload(rUp), SyntheticDownload(rDown));
    if packageName == "" then (prev, synthetic)
    else
      var uid := AppUid(packageName, exec);
      if uid.None? then (prev, synthetic)
      else RatesStep(prev, NetworkStatsOf(uid, exec), now, rUp, rDown)
  }

  /** Without a uid nothing is read and the counters are 0; without
      per-uid statistics they are the Wi-Fi and mobile interfaces' counters
      added up. */
  lemma StatsSources(uid: Option<string>, exec: string -> string)
    ensures uid.None? ==> NetworkStatsOf(uid, exec) == Counters(0, 0)
    ensures uid.Some? && uid.value != "" && IsBlank(exec(StatsCommand(uid.value))) ==>
              var ifs := InterfacesOf(exec(DevCommand));
              NetworkStatsOf(uid, exec) == Plus(InterfaceStats(ifs.wifi, exec), InterfaceStats(ifs.mobile, exec))
  {
  }

  /** Without a package name or a uid the round reports synthetic rates
      and leaves the record of the previous round as it was. */
  lemma UnmeasuredRoundKeepsBaseline(prev: NetState, packageName: string, exec: string -> string, now: int,
                                     rUp: real, rDown: real)
    requires packageName == "" || AppUid(packageName, exec).None?
    ensures NetworkStep(prev, packageName, exec, now, rUp, rDown) == (prev, Rates(SyntheticUpload(rUp), SyntheticDownload(rDown)))
  {
  }

  /** Every reported rate lies in [0, 10000] KB/s. */
  lemma RatesBounded(prev: NetState, current: Counters, now: int, rUp: real, rDown: real)
    requires 0.0 <= rUp < 1.0 && 0.0 <= rDown < 1.0
    ensures var r := RatesStep(prev, current, now, rUp, rDown).1;
            0.0 <= r.upload <= MaxRate && 0.0 <= r.download <= MaxRate
  {
  }

  /** The first round records a baseline and reports synthetic rates. */
  lemma BaselineRound(prev: NetState, current: Counters, now: int, rUp: real, rDown: real)
    requires prev.timestamp == 0
    ensures RatesStep(prev, current, now, rUp, rDown)
            == (NetState(current.rxBytes, current.txBytes, now), Rates(SyntheticUpload(rUp), SyntheticDownload(rDown)))
  {
  }

  /** A clock that did not move forward leaves the baseline alone. */
  lemma StalledClockKeepsBaseline(prev: NetState, current: Counters, now: int, rUp: real, rDown: real)
    requires prev.timestamp != 0 && now <= prev.timestamp
    ensures RatesStep(prev, current, now, rUp, rDown).0 == prev
  {
  }

  /** A measured round moves the baseline to the current counters, and a
      rate within bounds is the byte difference per second in KB, to two
      decimals. */
  lemma MeasuredRound(prev: NetState, current: Counters, now: int, rUp: real, rDown: real)
    requires prev.timestamp != 0 && now > prev.timestamp
    ensures var (next, r) := RatesStep(prev, current, now, rUp, rDown);
            var seconds := (now - prev.timestamp) as real / 1000.0;
            var exactDown := (current.rxBytes - prev.rxBytes) as real / 1024.0 / seconds;
            var exactUp := (current.txBytes - prev.txBytes) as real / 1024.0 / seconds;
            next == NetState(current.rxBytes, current.txBytes, now)
            && (0.0 <= Rate(current.rxBytes - prev.rxBytes, seconds) <= MaxRate ==>
                  exactDown - 0.005 < r.download <= exactDown + 0.005)
            && (0.0 <= Rate(current.txBytes - prev.txBytes, seconds) <= MaxRate ==>
                  exactUp - 0.005 < r.upload <= exactUp + 0.005)
  {
  }

  /** A download counter that fell far enough (a reset on the device) for
      its rate to round below zero is replaced by the synthetic value. */
  lemma CounterResetIsSynthetic(prev: NetState, current: Counters, now: int, rUp: real, rDown: real)
    requires prev.timestamp != 0 && now > prev.timestamp
    requires current.rxBytes < prev.rxBytes
    requires (current.rxBytes - prev.rxBytes) as real / 1024.0 / ((now - prev.timestamp) as real / 1000.0) < -0.005
    ensures RatesStep(prev, current, now, rUp, rDown).1.download == SyntheticDownload(rDown)
  {
  }

  class NetworkCollector {
    var rxBytes: int
    var txBytes: int
    var timestamp: int

    function State(): NetState
      reads this
    {
      NetState(rxBytes, txBytes, timestamp)
    }

    constructor()
      ensures State() == NetState(0, 0, 0)
    {
      rxBytes := 0;
      txBytes := 0;
      timestamp := 0;
    }

    /** resetNetworkCollector. */
    method Reset()
      modifies this
      ensures State() == NetState(0, 0, 0)
    {
      rxBytes := 0;
      txBytes := 0;
      timestamp := 0;
    }

    /** collectNetworkUsage. */
    method CollectNetworkUsage(packageName: string, exec: string -> string, now: int, rUp: real, rDown: real)
      returns (r: Rates)
      modifies this
      ensures (State(), r) == NetworkStep(old(State()), packageName, exec, now, rUp, rDown)
    {
      if packageName == "" {
        return Rates(SyntheticUpload(rUp), SyntheticDownload(rDown));
      }
      var uid := AppUid(packageName, exec);
      if uid.None? {
        return Rates(SyntheticUpload(rUp), SyntheticDownload(rDown));
      }
      var currentData := GetNetworkStats(uid, exec);
      r := Measure(currentData, now, rUp, rDown);
    }

    /** The part of collectNetworkUsage after the counters are read. */
    method Measure(currentData: Counters, currentTime: int, rUp: real, rDown: real) returns (r: Rates)
      modifies this
      ensures (State(), r) == RatesStep(old(State()), currentData, currentTime, rUp, rDown)
    {
      if timestamp == 0 {
        rxBytes, txBytes, timestamp := currentData.rxBytes, currentData.txBytes, currentTime;
        return Rates(SyntheticUpload(rUp), SyntheticDownload(rDown));
      }
      var timeDiff := (currentTime - timestamp) as real / 1000.0;
      if timeDiff <= 0.0 {
        return Rates(SyntheticUpload(rUp), SyntheticDownload(rDown));
      }
      var rxDiff := currentData.rxBytes - rxBytes;
      var txDiff := currentData.txBytes - txBytes;
      var download := Round2(rxDiff as real / 1024.0 / timeDiff);
      var upload := Round2(txDiff as real / 1024.0 / timeDiff);
      if download < 0.0 || download > MaxRate {
        download := SyntheticDownload(rDown);
      }
      if upload < 0.0 || upload > MaxRate {
        upload := SyntheticUpload(rUp);
      }
      rxBytes, txBytes, timestamp := currentData.rxBytes, currentData.txBytes, currentTime;
      return Rates(upload, download);
    }
  }
}
