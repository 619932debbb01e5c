/**
  * The device-information page's parsers and formatters: uptime and CPU
  * frequency, the screen resolution, the battery and storage readings, the
  * Wi-Fi network name and the three colour scales.
  *
  * Command output is a parameter (or the shell oracle `exec`). Values are
  * kept as numbers; the strings the page renders them into (`3天 4小时 5分钟`,
  * `1800 MHz`) are not modelled, except for the fallback text 未知.
  */
module DeviceInfoService {
  import opened Util
  import opened Text
  import opened Pattern

  /** The text shown for a value that could not be read ("unknown"). */
  const Unknown := "未知"

  // ---------------------------------------------------------------------
  // formatUptime

  datatype Uptime = UnknownUptime | Uptime(days: int, hours: int, minutes: int)

  /** JavaScript's `%`: the remainder has the sign of the dividend. */
  function JsRem(a: int, b: int): (r: int)
    requires b > 0
    ensures a >= 0 ==> r == a % b
    ensures a < 0 ==> -b < r <= 0 && r == -((-a) % b)
  {
    if a >= 0 then a % b else -((-a) % b)
  }

  /** formatUptime: the empty text, or one parseInt reads no number from,
      is unknown; otherwise whole days, the hours left over and the minutes
      left over. `Math.floor(a / b)` for b > 0 is the integer a / b. */
  function FormatUptime(seconds: string): (r: Uptime)
    ensures r.UnknownUptime? <==> seconds == "" || ParseInt(seconds).None?
  {
    if seconds == "" || ParseInt(seconds).None? then UnknownUptime
    else
      ParseIntOfTrim(seconds);
      var uptimeSec := ParseInt(Trim(seconds)).value;
      Uptime(uptimeSec / 86400, JsRem(uptimeSec, 86400) / 3600, JsRem(uptimeSec, 3600) / 60)
  }

  /** For a non-negative count the three fields are the mixed-radix digits
      of the count: they add back up to it, bar the seconds, and hours and
      minutes stay below 24 and 60. */
  lemma UptimeDecomposes(seconds: string)
    requires FormatUptime(seconds).Uptime? && ParseInt(seconds).value >= 0
    ensures var u := FormatUptime(seconds);
            var n := ParseInt(seconds).value;
            && u.days >= 0 && 0 <= u.hours < 24 && 0 <= u.minutes < 60
            && n == u.days * 86400 + u.hours * 3600 + u.minutes * 60 + n % 60
  {
    ParseIntOfTrim(seconds);
    MixedRadix(ParseInt(seconds).value);
  }

  /** Days, hours and minutes as formatUptime computes them, for n >= 0. */
  lemma MixedRadix(n: int)
    requires n >= 0
    ensures var d, h, m := n / 86400, (n % 86400) / 3600, (n % 3600) / 60;
            d >= 0 && 0 <= h < 24 && 0 <= m < 60 && n == d * 86400 + h * 3600 + m * 60 + n % 60
  {
    var d, r1 := n / 86400, n % 86400;
    var h, r2 := r1 / 3600, r1 % 3600;
    assert r1 == 3600 * h + r2 && 0 <= h < 24;
    assert n == 3600 * (24 * d + h) + r2;
    assert n % 3600 == r2;
    var m, r3 := r2 / 60, r2 % 60;
    assert r2 == 60 * m + r3 && 0 <= m < 60;
    assert n == 60 * (1440 * d + 60 * h + m) + r3;
    assert n % 60 == r3;
  }

  /** A negative count (which /proc/uptime does not produce) gives fields
      that are all at most zero, the days strictly negative. */
  lemma NegativeUptime(seconds: string)
    requires FormatUptime(seconds).Uptime? && ParseInt(seconds).value < 0
    ensures var u := FormatUptime(seconds);
            u.days < 0 && u.hours <= 0 && u.minutes <= 0
  {
    ParseIntOfTrim(seconds);
  }

  // ---------------------------------------------------------------------
  // formatCpuFreq

  datatype Frequency = UnknownFrequency | MHz(value: int)

  /** formatCpuFreq: a kHz reading turned into whole MHz; the empty text,
      the unknown text, a text without a number and a zero reading are
      unknown. */
  function FormatCpuFreq(freq: string): (r: Frequency)
    ensures r.UnknownFrequency? <==> freq == "" || freq == Unknown || ParseInt(freq).None? || ParseInt(freq) == Some(0)
    ensures r.MHz? ==> var khz := ParseInt(freq).value as real;
                       khz / 1000.0 - 0.5 <= r.value as real <= khz / 1000.0 + 0.5
  {
    if freq == "" || freq == Unknown then UnknownFrequency
    else
      ParseIntOfTrim(freq);
      var freqNum := ParseInt(Trim(freq));
      if freqNum.None? || freqNum.value == 0 then UnknownFrequency
      else MHz(ToFixed0(freqNum.value as real / 1000.0))
  }

  /** A higher positive reading never shows as a lower frequency. */
  lemma CpuFreqMonotone(a: string, b: string)
    requires FormatCpuFreq(a).MHz? && FormatCpuFreq(b).MHz?
    requires 0 <= ParseInt(a).value <= ParseInt(b).value
    ensures FormatCpuFreq(a).value <= FormatCpuFreq(b).value
  {
    ParseIntOfTrim(a);
    ParseIntOfTrim(b);
    RoundMonotone(ParseInt(a).value as real / 1000.0, ParseInt(b).value as real / 1000.0);
  }

  // ---------------------------------------------------------------------
  // Resolution

  /** `/Physical size: (\d+x\d+)/`, the two numbers captured separately. */
  const PhysicalSize: seq<Elem> := [Lit("Physical size: "), Run(Digit, 1, false, true), Lit("x"), Run(Digit, 1, false, true)]

  lemma PhysicalSizeGroups()
    ensures Groups(PhysicalSize) == [Run(Digit, 1, false, true), Run(Digit, 1, false, true)]
  {
    assert PhysicalSize[1..][1..][1..][1..] == [];
    assert Groups(PhysicalSize[1..][1..][1..]) == [Run(Digit, 1, false, true)];
    assert Groups(PhysicalSize[1..][1..]) == [Run(Digit, 1, false, true)];
  }

  /** The resolution text of the page: `WxH` from the first `Physical size:`
      line of `wm size`, unknown for empty output or no such line. */
  function Resolution(resolution: string): (r: string)
    ensures r == Unknown <==> resolution == "" || Search(resolution, PhysicalSize).None?
    ensures r != Unknown ==> var g := Search(resolution, PhysicalSize).value;
                             |g| == 2 && IsDigits(g[0]) && IsDigits(g[1]) && r == g[0] + "x" + g[1]
  {
    if resolution == "" then Unknown
    else
      match Search(resolution, PhysicalSize)
      case None => Unknown
      case Some(g) =>
        PhysicalSizeGroups();
        SearchGroups(resolution, PhysicalSize);
        assert Fits(g[0], Groups(PhysicalSize)[0]) && Fits(g[1], Groups(PhysicalSize)[1]);
        var r := g[0] + "x" + g[1];
        assert r[0] == g[0][0];
        r
  }

  /** A resolution is reported only from output that names it. */
  lemma ResolutionNeedsTag(resolution: string)
    requires Resolution(resolution) != Unknown
    ensures Contains(resolution, "Physical size: ")
  {
    assert PhysicalSize == [Lit("Physical size: ")] + PhysicalSize[1..];
    LiteralFirst(resolution, "Physical size: ", PhysicalSize[1..]);
  }

  // ---------------------------------------------------------------------
  // getBatteryInfo

  datatype BatteryInfo = BatteryInfo(percentage: nat, voltage: real, temperature: real)

  const NoBattery := BatteryInfo(0, 0.0, 0.0)

  /** The number after the first `tag` followed by digits, 0 when there is
      none. */
  function Reading(text: string, tag: string): (n: nat)
    ensures n > 0 ==> FirstNumber(text, NumberAfter(tag)).Some?
  {
    match FirstNumber(text, NumberAfter(tag))
    case Some(n) => n
    case None => 0
  }

  /** getBatteryInfo on the output of `dumpsys battery`: the level in
      percent, the voltage from microvolts to volts and the temperature from
      tenths of a degree to degrees; zeros for empty output, and 0 for each
      field that is missing. */
  function GetBatteryInfo(batteryInfo: string): (r: BatteryInfo)
    ensures batteryInfo == "" ==> r == NoBattery
    ensures r.percentage == Reading(batteryInfo, "level:")
    ensures r.voltage >= 0.0 && r.temperature >= 0.0
    ensures r.voltage * 1000000.0 == Reading(batteryInfo, "voltage:") as real
    ensures r.temperature * 10.0 == Reading(batteryInfo, "temperature:") as real
  {
    if batteryInfo == "" then NoBattery
    else
      BatteryInfo(Reading(batteryInfo, "level:"),
                  Reading(batteryInfo, "voltage:") as real / 1000000.0,
                  Reading(batteryInfo, "temperature:") as real / 10.0)
  }

  /** A non-zero field was read from digits written after its own tag, and
      is what parseInt (or parseFloat) reads from them. */
  lemma BatteryFieldIsTagged(batteryInfo: string, tag: string)
    requires Reading(batteryInfo, tag) > 0
    ensures Contains(batteryInfo, tag)
    ensures var g := FirstGroup(batteryInfo, NumberAfter(tag)).value;
            && IsDigits(g)
            && ParseInt(g) == Some(Reading(batteryInfo, tag) as int)
            && ParseFloat(g) == Fin(Reading(batteryInfo, tag) as real)
  {
    var pat := NumberAfter(tag);
    FirstNumberParses(batteryInfo, pat);
    ParseFloatOfDigits(FirstGroup(batteryInfo, pat).value);
    assert pat == [Lit(tag)] + pat[1..];
    LiteralFirst(batteryInfo, tag, pat[1..]);
  }

  // ---------------------------------------------------------------------
  // getStorageInfo

  datatype StorageInfo = StorageInfo(total: string, used: string, usedRate: nat)

  const NoStorage := StorageInfo("0G", "0G", 0)

  /** `/(\d+[GMK]) +(\d+[GMK]) +\d+[GMK] +(\d+)%/`, each size captured as its
      digits and its unit. */
  const StoragePattern: seq<Elem> := [
    Run(Digit, 1, false, true), Run(SizeUnit, 1, true, true), Run(Blank, 1, false, false),
    Run(Digit, 1, false, true), Run(SizeUnit, 1, true, true), Run(Blank, 1, false, false),
    Run(Digit, 1, false, false), Run(SizeUnit, 1, true, false), Run(Blank, 1, false, false),
    Run(Digit, 1, false, true), Lit("%")]

  /** The captured pieces: digits and unit of the total, digits and unit of
      the used size, digits of the percentage. */
  lemma StoragePatternGroups()
    ensures Groups(StoragePattern) == [Run(Digit, 1, false, true), Run(SizeUnit, 1, true, true),
                                       Run(Digit, 1, false, true), Run(SizeUnit, 1, true, true),
                                       Run(Digit, 1, false, true)]
  {
    var sized := [Run(Digit, 1, false, true), Run(SizeUnit, 1, true, true), Run(Blank, 1, false, false)];
    var skipped := [Run(Digit, 1, false, false), Run(SizeUnit, 1, true, false), Run(Blank, 1, false, false)];
    var rate := [Run(Digit, 1, false, true), Lit("%")];
    var sizeGroups := [Run(Digit, 1, false, true), Run(SizeUnit, 1, true, true)];
    var rateGroups := [Run(Digit, 1, false, true)];
    assert Groups(sized) == sizeGroups by {
      assert sized[1..][1..][1..] == [];
    }
    assert Groups(skipped) == [] by {
      assert skipped[1..][1..][1..] == [];
    }
    assert Groups(rate) == rateGroups by {
      assert rate[1..][1..] == [];
    }
    var tail := skipped + rate;
    assert Groups(tail) == rateGroups by {
      GroupsAppend(skipped, rate);
    }
    assert Groups(sized + tail) == sizeGroups + rateGroups by {
      GroupsAppend(sized, tail);
    }
    assert StoragePattern == sized + (sized + tail);
    GroupsAppend(sized, sized + tail);
  }

  /** The match of the storage pattern: five captures, sizes as digits and
      one unit letter, the percentage as digits. */
  function StorageMatch(res: string): (m: Option<seq<string>>)
    ensures m.Some? <==> Search(res, StoragePattern).Some?
    ensures m.Some? ==> |m.value| == 5 && IsDigits(m.value[0]) && IsDigits(m.value[2]) && IsDigits(m.value[4])
                        && m.value[1] in ["G", "M", "K"] && m.value[3] in ["G", "M", "K"]
  {
    var m := Search(res, StoragePattern);
    if m.None? then None
    else
      StoragePatternGroups();
      SearchGroups(res, StoragePattern);
      var g := m.value;
      assert Fits(g[0], Groups(StoragePattern)[0]) && Fits(g[1], Groups(StoragePattern)[1]);
      assert Fits(g[2], Groups(StoragePattern)[2]) && Fits(g[3], Groups(StoragePattern)[3]);
      assert Fits(g[4], Groups(StoragePattern)[4]);
      assert |g[1]| == 1 && |g[3]| == 1;
      assert g[1] == [g[1][0]] && g[3] == [g[3][0]];
      m
  }

  /** A size as df prints it: digits and one unit letter. */
  predicate SizeText(t: string)
  {
    |t| >= 2 && IsDigits(t[..|t| - 1]) && t[|t| - 1] in {'G', 'M', 'K'}
  }

  /** getStorageInfo on the `/data` line of `df -h`: the total and used
      sizes and the used percentage of the first match, else 0G, 0G and 0. */
  function GetStorageInfo(res: string): (r: StorageInfo)
    ensures res == "" || StorageMatch(res).None? ==> r == NoStorage
    ensures res != "" && StorageMatch(res).Some? ==> SizeText(r.total) && SizeText(r.used)
  {
    if res == "" then NoStorage
    else
      match StorageMatch(res)
      case None => NoStorage
      case Some(g) =>
        assert (g[0] + g[1])[..|g[0] + g[1]| - 1] == g[0];
        assert (g[2] + g[3])[..|g[2] + g[3]| - 1] == g[2];
        StorageInfo(g[0] + g[1], g[2] + g[3], DigitsValue(g[4]))
  }

  /** The used percentage is what Number() reads from the captured digits,
      and the total is the first size of the matched line. */
  lemma StorageReadsMatch(res: string)
    requires res != "" && StorageMatch(res).Some?
    ensures var g := StorageMatch(res).value;
            && ParseInt(g[4]) == Some(GetStorageInfo(res).usedRate as int)
            && GetStorageInfo(res).total == g[0] + g[1] && GetStorageInfo(res).used == g[2] + g[3]
  {
    ParseIntOfDigits(StorageMatch(res).value[4]);
  }

  // ---------------------------------------------------------------------
  // getWifiInfo

  const WifiStatusCommand := "cmd wifi status"
  const WifiDumpCommand := "dumpsys wifi | grep SSID"
  const WifiInfoTag := "mWifiInfo SSID:"

  /** `/Wifi is connected to "(.*?)"/`: the lazy run stops at the first
      quote and never crosses a line end. */
  const ConnectedPattern: seq<Elem> := [Lit("Wifi is connected to \""), Run(NotQuoteInLine, 0, false, true), Lit("\"")]

  /** `/SSID: ([^,]*),/`. */
  const SsidPattern: seq<Elem> := [Lit("SSID: "), Run(NotComma, 0, false, true), Lit(",")]

  lemma WifiPatternGroups()
    ensures Groups(ConnectedPattern) == [Run(NotQuoteInLine, 0, false, true)]
    ensures Groups(SsidPattern) == [Run(NotComma, 0, false, true)]
  {
    assert ConnectedPattern[1..][1..][1..] == [];
    assert SsidPattern[1..][1..][1..] == [];
  }

  /** `s.replace(/"/g, '')`. */
  function StripDoubleQuotes(s: string): (r: string)
    ensures |r| <= |s|
    ensures forall i :: 0 <= i < |r| ==> r[i] != '"'
    ensures (forall i :: 0 <= i < |s| ==> s[i] != '"') ==> r == s
  {
    if s == [] then ""
    else (if s[0] == '"' then "" else [s[0]]) + StripDoubleQuotes(s[1..])
  }

  /** `lines.find(line => line.includes(sub))`, as the index found. */
  function FirstLineWith(lines: seq<string>, sub: string, from: nat): (r: Option<nat>)
    requires from <= |lines|
    ensures r.Some? ==> from <= r.value < |lines| && Contains(lines[r.value], sub)
                        && forall j :: from <= j < r.value ==> !Contains(lines[j], sub)
    ensures r.None? ==> forall j :: from <= j < |lines| ==> !Contains(lines[j], sub)
    decreases |lines| - from
  {
    if from == |lines| then None
    else if Contains(lines[from], sub) then Some(from)
    else FirstLineWith(lines, sub, from + 1)
  }

  /** The first way: the quoted name in `cmd wifi status`; null for empty
      output or no match. */
  function WifiByStatus(res: string): (r: Option<string>)
    ensures r.Some? ==> forall i :: 0 <= i < |r.value| ==> r.value[i] != '"'
  {
    if res == "" then None
    else
      WifiPatternGroups();
      FirstGroup(res, ConnectedPattern)
  }

  /** The second way: in the SSID lines of `dumpsys wifi`, the text after
      `SSID: ` up to the next comma, taken from the first `mWifiInfo SSID:`
      line when there is one and from the whole output otherwise; trimmed
      and stripped of double quotes. */
  function WifiByDump(res: string): (r: Option<string>)
    ensures r.Some? ==> forall i :: 0 <= i < |r.value| ==> r.value[i] != '"'
  {
    if res == "" then None
    else
      var lines := SplitOn(res, '\n');
      var text := match FirstLineWith(lines, WifiInfoTag, 0) case Some(i) => lines[i] case None => res;
      WifiPatternGroups();
      match FirstGroup(text, SsidPattern)
      case None => None
      case Some(g) => Some(StripDoubleQuotes(Trim(g)))
  }

  /** `if (result)` on a way's result. */
  predicate Truthy(r: Option<string>)
  {
    r.Some? && r.value != ""
  }

  /** The k-th way of getWifiInfo's list, on its own command's output. */
  function WifiWay(k: nat, exec: string -> string): Option<string>
  {
    if k == 0 then WifiByStatus(exec(WifiStatusCommand)) else WifiByDump(exec(WifiDumpCommand))
  }

  /** getWifiInfo as a function of the device: the first way with a
      non-empty answer, else unknown. */
  function WifiName(exec: string -> string): string
  {
    var status, dump := WifiWay(0, exec), WifiWay(1, exec);
    if Truthy(status) then status.value else if Truthy(dump) then dump.value else Unknown
  }

  /** getWifiInfo: the ways in order, returning the first non-empty
      answer. */
  method GetWifiInfo(exec: string -> string) returns (name: string)
    ensures name == WifiName(exec)
  {
    for k := 0 to 2
      invariant forall j :: 0 <= j < k ==> !Truthy(WifiWay(j, exec))
    {
      var result := WifiWay(k, exec);
      if Truthy(result) {
        assert k == 1 ==> !Truthy(WifiWay(0, exec));
        return result.value;
      }
    }
    assert !Truthy(WifiWay(0, exec)) && !Truthy(WifiWay(1, exec));
    return Unknown;
  }

  /** The name is never empty. It is the status answer whenever that one
      is non-empty, the dump answer when only the dump answers, and the
      unknown marker when neither does: the dump is consulted only as a
      fallback. */
  lemma WifiNameOrder(exec: string -> string)
    ensures WifiName(exec) != ""
    ensures Truthy(WifiWay(0, exec)) ==> WifiName(exec) == WifiWay(0, exec).value
    ensures !Truthy(WifiWay(0, exec)) && Truthy(WifiWay(1, exec)) ==> WifiName(exec) == WifiWay(1, exec).value
    ensures !Truthy(WifiWay(0, exec)) && !Truthy(WifiWay(1, exec)) ==> WifiName(exec) == Unknown
  {
  }

  /** Whichever way answers, the name carries no double quote. */
  lemma WifiNameUnquoted(exec: string -> string)
    ensures forall i :: 0 <= i < |WifiName(exec)| ==> WifiName(exec)[i] != '"'
  {
    var status, dump := WifiWay(0, exec), WifiWay(1, exec);
    if !Truthy(status) && !Truthy(dump) {
      assert WifiName(exec) == Unknown;
    }
  }

  // ---------------------------------------------------------------------
  // Colours

  datatype Color = Green | Orange | Red

  function Hex(c: Color): string
  {
    match c
    case Green => "#4CAF50"
    case Orange => "#FF9800"
    case Red => "#F44336"
  }

  /** How alarming a colour is. */
  function Severity(c: Color): nat
  {
    match c
    case Green => 0
    case Orange => 1
    case Red => 2
  }

  /** getBatteryColor: green from 70 percent, orange from 30, red below. */
  function BatteryColor(percentage: real): (c: Color)
    ensures c == Green <==> percentage >= 70.0
    ensures c == Red <==> percentage < 30.0
  {
    if percentage >= 70.0 then Green else if percentage >= 30.0 then Orange else Red
  }

  /** getTemperatureColor: green up to 30 degrees, orange up to 40, red
      above. */
  function TemperatureColor(temperature: real): (c: Color)
    ensures c == Green <==> temperature <= 30.0
    ensures c == Red <==> temperature > 40.0
  {
    if temperature <= 30.0 then Green else if temperature <= 40.0 then Orange else Red
  }

  /** getProgressColor: green up to 70 percent, orange up to 90, red above. */
  function ProgressColor(percentage: real): (c: Color)
    ensures c == Green <==> percentage <= 70.0
    ensures c == Red <==> percentage > 90.0
  {
    if percentage <= 70.0 then Green else if percentage <= 90.0 then Orange else Red
  }

  /** Less charge is never shown as less alarming. */
  lemma BatteryColorMonotone(p: real, q: real)
    requires p <= q
    ensures Severity(BatteryColor(q)) <= Severity(BatteryColor(p))
  {
  }

  /** A hotter battery is never shown as less alarming. */
  lemma TemperatureColorMonotone(t: real, u: real)
    requires t <= u
    ensures Severity(TemperatureColor(t)) <= Severity(TemperatureColor(u))
  {
  }

  /** A fuller bar is never shown as less alarming. */
  lemma ProgressColorMonotone(p: real, q: real)
    requires p <= q
    ensures Severity(ProgressColor(p)) <= Severity(ProgressColor(q))
  {
  }

  /** The three colours are three different codes. */
  lemma HexDistinct(a: Color, b: Color)
    requires a != b
    ensures Hex(a) != Hex(b)
  {
    assert Hex(a)[1] != Hex(b)[1] || Hex(a)[2] != Hex(b)[2];
  }
}
