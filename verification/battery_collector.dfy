/**
  * The battery collector: reads the level and temperature from
  * `dumpsys battery`, replaces values out of range, smooths them against the
  * previous reading and, when nothing can be read, simulates a plausible
  * reading from the previous one.
  *
  * The module-level record of the previous reading is the class
  * `BatteryCollector`. Each Math.random() draw is a parameter in [0, 1):
  * `rLevel` for the draw that decides a level and `rTemp` for the draw that
  * decides a temperature (no path draws more than one of each).
  */
module BatteryCollector {
  import opened Util
  import opened Text
  import opened Pattern

  const BatteryCommand := "dumpsys battery"

  /** The weight of the new reading in the exponential smoothing. */
  const SmoothingFactor: real := 0.3

  /** The previous reading; None is null. */
  datatype BatteryState = BatteryState(level: Option<int>, temperature: Option<Num>)

  /** A reading: level in percent, temperature in degrees Celsius. */
  datatype Reading = Reading(level: int, temperature: Num)

  const NoHistory := BatteryState(None, None)

  // ---------------------------------------------------------------------
  // Arithmetic on a temperature that may be NaN

  /** `a * x + b * y`. */
  function Mix(a: real, x: Num, b: real, y: Num): (r: Num)
    ensures r.Fin? <==> x.Fin? && y.Fin?
  {
    if x.Fin? && y.Fin? then Fin(a * x.v + b * y.v) else NaN
  }

  /** `parseFloat(x.toFixed(1))`. */
  function Fixed1(x: Num): (r: Num)
    ensures r.Fin? <==> x.Fin?
  {
    if x.Fin? then Fin(ToFixed1(x.v)) else NaN
  }

  /** `Math.max(lo, Math.min(hi, x))`; NaN stays NaN. */
  function ClampNum(x: Num, lo: real, hi: real): (r: Num)
    requires lo <= hi
    ensures r.Fin? <==> x.Fin?
    ensures r.Fin? ==> lo <= r.v <= hi
  {
    if x.NaN? then NaN
    else Fin(if x.v > hi then hi else if x.v < lo then lo else x.v)
  }

  // ---------------------------------------------------------------------
  // Parsing

  const LevelPattern := NumberAfter("level:")
  const LevelPatternZh := [Lit("电量:"), Run(Space, 0, false, false), Run(Digit, 1, false, true), Lit("%")]
  const LevelPatternEn := [Lit("Battery Level:"), Run(Space, 0, false, false), Run(Digit, 1, false, true), Lit("%")]

  const TemperaturePattern := NumberAfter("temperature:")
  const TemperaturePatternZh := [Lit("温度:"), Run(Space, 0, false, false), Run(DigitOrDot, 1, false, true), Lit("°C")]
  const TemperaturePatternEn := [Lit("Battery Temperature:"), Run(Space, 0, false, false), Run(DigitOrDot, 1, false, true), Lit("°C")]

  /** The level: from the first of the three forms that matches. */
  function LevelOf(result: string): (r: Option<int>)
    ensures r.Some? ==> r.value >= 0
  {
    match FirstNumber(result, LevelPattern)
    case Some(n) => Some(n)
    case None =>
      match FirstNumber(result, LevelPatternZh)
      case Some(n) => Some(n)
      case None =>
        match FirstNumber(result, LevelPatternEn)
        case Some(n) => Some(n)
        case None => None
  }

  /** The temperature: `temperature: N` is tenths of a degree, the two
      other forms are degrees as written. */
  function TemperatureOf(result: string): Option<Num>
  {
    match FirstNumber(result, TemperaturePattern)
    case Some(n) => Some(Fin(n as real / 10.0))
    case None =>
      match FirstGroup(result, TemperaturePatternZh)
      case Some(g) => Some(ParseFloat(g))
      case None =>
        match FirstGroup(result, TemperaturePatternEn)
        case Some(g) => Some(ParseFloat(g))
        case None => None
  }

  // ---------------------------------------------------------------------
  // The step functions

  /** generateSimulatedBatteryData as a function of the previous reading. */
  function Simulated(prev: BatteryState, rLevel: real, rTemp: real): (BatteryState, Reading)
  {
    var reading :=
      if prev.level.Some? && prev.temperature.Some? then
        var levelDecrease := if rLevel < 0.7 then 0 else 1;
        var level := if prev.level.value - levelDecrease > 1 then prev.level.value - levelDecrease else 1;
        var tempVariation := (rTemp - 0.5) * 1.0;
        var temperature := Fixed1(Mix(1.0, prev.temperature.value, 1.0, Fin(tempVariation)));
        Reading(level, ClampNum(temperature, 20.0, 45.0))
      else
        Reading((rLevel * 30.0).Floor + 70, Fin(ToFixed1(25.0 + rTemp * 10.0)));
    (BatteryState(Some(reading.level), Some(reading.temperature)), reading)
  }

  /** A level outside [0, 100] is replaced by the previous one, or drawn. */
  function CheckedLevel(level: int, prev: BatteryState, rLevel: real): int
  {
    if level < 0 || level > 100 then
      if prev.level.Some? then prev.level.value else (rLevel * 100.0).Floor
    else level
  }

  /** A temperature outside [0, 60] is replaced by the previous one, or
      drawn; NaN compares false and is kept. */
  function CheckedTemperature(temperature: Num, prev: BatteryState, rTemp: real): Num
  {
    if temperature.Fin? && (temperature.v < 0.0 || temperature.v > 60.0) then
      if prev.temperature.Some? then prev.temperature.value else Fin(25.0 + rTemp * 10.0)
    else temperature
  }

  /** collectBatteryInfo as a function of the previous reading and the
      output of `dumpsys battery`. */
  function BatteryStep(prev: BatteryState, result: string, rLevel: real, rTemp: real): (BatteryState, Reading)
  {
    if IsBlank(result) then Simulated(prev, rLevel, rTemp)
    else
      var parsedLevel := LevelOf(result);
      var parsedTemperature := TemperatureOf(result);
      if parsedLevel.None? || parsedTemperature.None? then Simulated(prev, rLevel, rTemp)
      else
        Accepted(prev, parsedLevel.value, parsedTemperature.value, rLevel, rTemp)
  }

  /** The bounds check and smoothing of a parsed reading, which then
      becomes the previous reading. */
  function Accepted(prev: BatteryState, parsedLevel: int, parsedTemperature: Num, rLevel: real, rTemp: real)
    : (BatteryState, Reading)
  {
    var level := CheckedLevel(parsedLevel, prev, rLevel);
    var temperature := CheckedTemperature(parsedTemperature, prev, rTemp);
    var reading :=
      if prev.level.Some? && prev.temperature.Some? then
        Reading(Round(SmoothingFactor * level as real + (1.0 - SmoothingFactor) * prev.level.value as real),
                Fixed1(Mix(SmoothingFactor, temperature, 1.0 - SmoothingFactor, prev.temperature.value)))
      else Reading(level, temperature);
    (BatteryState(Some(reading.level), Some(reading.temperature)), reading)
  }

  // ---------------------------------------------------------------------
  // Properties

  /** Every reading, measured or simulated, becomes the previous reading. */
  lemma StepStoresReading(prev: BatteryState, result: string, rLevel: real, rTemp: real)
    ensures var (next, r) := BatteryStep(prev, result, rLevel, rTemp);
            next == BatteryState(Some(r.level), Some(r.temperature))
  {
  }

  /** Blank output, or a level or temperature in none of the known forms,
      gives the simulated reading. */
  lemma UnreadableIsSimulated(prev: BatteryState, result: string, rLevel: real, rTemp: real)
    requires IsBlank(result) || LevelOf(result).None? || TemperatureOf(result).None?
    ensures BatteryStep(prev, result, rLevel, rTemp) == Simulated(prev, rLevel, rTemp)
  {
  }

  /** With a previous reading the simulator lowers the level by at most
      one (never below 1) and moves the temperature by at most half a
      degree plus the rounding, within [20, 45]. */
  lemma SimulatedWithHistory(prev: BatteryState, rLevel: real, rTemp: real)
    requires prev.level.Some? && prev.temperature.Some? && prev.temperature.value.Fin?
    requires 0.0 <= rLevel < 1.0 && 0.0 <= rTemp < 1.0
    ensures var r := Simulated(prev, rLevel, rTemp).1;
            var l := prev.level.value;
            var t := prev.temperature.value.v;
            (r.level == l || r.level == l - 1 || r.level == 1) && r.level >= 1 && r.level <= (if l > 1 then l else 1)
            && r.temperature.Fin? && 20.0 <= r.temperature.v <= 45.0
            && (20.0 <= t - 0.55 && t + 0.55 <= 45.0 ==> t - 0.55 <= r.temperature.v <= t + 0.55)
  {
  }

  /** Without a previous reading the simulator draws a level in [70, 99]
      and a temperature in [25, 35]. */
  lemma SimulatedFresh(prev: BatteryState, rLevel: real, rTemp: real)
    requires prev.level.None? || prev.temperature.None?
    requires 0.0 <= rLevel < 1.0 && 0.0 <= rTemp < 1.0
    ensures var r := Simulated(prev, rLevel, rTemp).1;
            70 <= r.level <= 99 && r.temperature.Fin? && 25.0 <= r.temperature.v <= 35.0
  {
    ToFixed1Within(25.0 + rTemp * 10.0, 250, 350);
  }

  /** A reading in both known forms goes through the bounds check and
      smoothing. */
  lemma ReadableIsAccepted(prev: BatteryState, result: string, rLevel: real, rTemp: real)
    requires !IsBlank(result) && LevelOf(result).Some? && TemperatureOf(result).Some?
    ensures BatteryStep(prev, result, rLevel, rTemp)
            == Accepted(prev, LevelOf(result).value, TemperatureOf(result).value, rLevel, rTemp)
  {
  }

  /** A first reading is not smoothed: values in range are reported as
      read. */
  lemma FirstReadingAsRead(level: int, temperature: Num, rLevel: real, rTemp: real)
    requires 0 <= level <= 100
    requires temperature.Fin? ==> 0.0 <= temperature.v <= 60.0
    ensures Accepted(NoHistory, level, temperature, rLevel, rTemp).1 == Reading(level, temperature)
  {
  }

  /** A value out of range with no history is replaced by a drawn level
      in [0, 99] and a drawn temperature in [25, 35). */
  lemma FirstReadingOutOfRange(level: int, temperature: Num, rLevel: real, rTemp: real)
    requires level < 0 || level > 100
    requires temperature.Fin? && (temperature.v < 0.0 || temperature.v > 60.0)
    requires 0.0 <= rLevel < 1.0 && 0.0 <= rTemp < 1.0
    ensures var r := Accepted(NoHistory, level, temperature, rLevel, rTemp).1;
            0 <= r.level <= 99 && r.temperature.Fin? && 25.0 <= r.temperature.v < 35.0
  {
  }

  /** With a previous reading, a level and temperature read in range are
      smoothed: 0.3 of the new value plus 0.7 of the previous one, to the
      nearest integer for the level and to a tenth of a degree for the
      temperature. */
  lemma SmoothedReading(prev: BatteryState, level: int, temperature: real, rLevel: real, rTemp: real)
    requires prev.level.Some? && prev.temperature.Some? && prev.temperature.value.Fin?
    requires 0 <= level <= 100 && 0.0 <= temperature <= 60.0
    ensures var r := Accepted(prev, level, Fin(temperature), rLevel, rTemp).1;
            var smoothLevel := 0.3 * level as real + 0.7 * prev.level.value as real;
            var smoothTemperature := 0.3 * temperature + 0.7 * prev.temperature.value.v;
            smoothLevel - 0.5 < r.level as real <= smoothLevel + 0.5
            && r.temperature.Fin? && smoothTemperature - 0.05 <= r.temperature.v <= smoothTemperature + 0.05
  {
  }

  /** The ranges the collector keeps: a level in [0, 100] and a
      temperature in [0, 60] (or NaN, which a malformed `温度:` value can
      produce). */
  predicate InRange(r: Reading)
  {
    0 <= r.level <= 100 && (r.temperature.Fin? ==> 0.0 <= r.temperature.v <= 60.0)
  }

  predicate StateInRange(st: BatteryState)
  {
    (st.level.Some? ==> 0 <= st.level.value <= 100)
    && (st.temperature.Some? && st.temperature.value.Fin? ==> 0.0 <= st.temperature.value.v <= 60.0)
  }

  lemma AcceptedKeepsRange(prev: BatteryState, level: int, temperature: Num, rLevel: real, rTemp: real)
    requires StateInRange(prev)
    requires 0.0 <= rLevel < 1.0 && 0.0 <= rTemp < 1.0
    ensures var (next, r) := Accepted(prev, level, temperature, rLevel, rTemp);
            InRange(r) && StateInRange(next)
  {
    var l := CheckedLevel(level, prev, rLevel);
    var t := CheckedTemperature(temperature, prev, rTemp);
    if prev.level.Some? && prev.temperature.Some? {
      var mixed := SmoothingFactor * l as real + (1.0 - SmoothingFactor) * prev.level.value as real;
      RoundMonotone(0.0, mixed);
      RoundMonotone(mixed, 100.0);
      RoundOfInt(0);
      RoundOfInt(100);
      if t.Fin? && prev.temperature.value.Fin? {
        ToFixed1Within(SmoothingFactor * t.v + (1.0 - SmoothingFactor) * prev.temperature.value.v, 0, 600);
      }
    }
  }

  lemma SimulatedKeepsRange(prev: BatteryState, rLevel: real, rTemp: real)
    requires StateInRange(prev)
    requires 0.0 <= rLevel < 1.0 && 0.0 <= rTemp < 1.0
    ensures var (next, r) := Simulated(prev, rLevel, rTemp);
            InRange(r) && StateInRange(next)
  {
    if prev.level.Some? && prev.temperature.Some? {
      if prev.temperature.value.Fin? {
        SimulatedWithHistory(prev, rLevel, rTemp);
      }
    } else {
      SimulatedFresh(prev, rLevel, rTemp);
    }
  }

  /** Starting from no history or a reading in range, every reading is in
      range, so the previous reading stays in range from round to round. */
  lemma StepKeepsRange(prev: BatteryState, result: string, rLevel: real, rTemp: real)
    requires StateInRange(prev)
    requires 0.0 <= rLevel < 1.0 && 0.0 <= rTemp < 1.0
    ensures var (next, r) := BatteryStep(prev, result, rLevel, rTemp);
            InRange(r) && StateInRange(next)
  {
    if !IsBlank(result) && LevelOf(result).Some? && TemperatureOf(result).Some? {
      AcceptedKeepsRange(prev, LevelOf(result).value, TemperatureOf(result).value, rLevel, rTemp);
    } else {
      SimulatedKeepsRange(prev, rLevel, rTemp);
    }
  }

  /** Once a NaN temperature is stored, smoothing and simulation keep
      reporting NaN until the collector is reset. */
  lemma NaNTemperaturePersists(prev: BatteryState, result: string, rLevel: real, rTemp: real)
    requires prev.level.Some? && prev.temperature == Some(NaN)
    ensures BatteryStep(prev, result, rLevel, rTemp).1.temperature == NaN
  {
  }

  // ---------------------------------------------------------------------
  // Battery health

  datatype Health = Health(health: string, voltage: int, current: real)

  const HealthPattern := [Lit("health:"), Run(Space, 0, false, false), Run(Word, 1, false, true)]
  const VoltagePattern := NumberAfter("voltage:")
  const CurrentPattern := [Lit("current now:"), Run(Space, 0, false, false), Run(Minus, 0, true, true), Run(Digit, 1, false, true)]

  /** The health pattern captures one run of word characters. */
  lemma HealthPatternGroups()
    ensures Groups(HealthPattern) == [Run(Word, 1, false, true)]
  {
    assert HealthPattern[1..][1..][1..] == [];
  }

  /** The current pattern captures the optional minus sign and the digits. */
  lemma CurrentPatternGroups()
    ensures Groups(CurrentPattern) == [Run(Minus, 0, true, true), Run(Digit, 1, false, true)]
  {
    assert CurrentPattern[1..][1..][1..][1..] == [];
  }

  /** The signed value of `-?\d+` captured as a sign and digits. */
  function SignedValue(sign: string, digits: string): int
  {
    if sign == "-" then -(DigitsValue(digits) as int) else DigitsValue(digits)
  }

  /** getBatteryHealth on the output of `dumpsys battery`. */
  function BatteryHealth(result: string): (h: Health)
    ensures IsBlank(result) ==> h == Health("unknown", 0, 0.0)
    ensures forall i :: 0 <= i < |h.health| ==> !('A' <= h.health[i] <= 'Z')
    ensures h.voltage >= 0
  {
    if IsBlank(result) then Health("unknown", 0, 0.0)
    else Health(HealthWord(result), VoltageNow(result), CurrentNow(result))
  }

  /** The health part of getBatteryHealth: the word after `health:`,
      lower-cased, `unknown` when there is none. */
  function HealthWord(result: string): (w: string)
    ensures forall i :: 0 <= i < |w| ==> !('A' <= w[i] <= 'Z')
  {
    HealthPatternGroups();
    match FirstGroup(result, HealthPattern)
    case Some(g) => ToLowerAscii(g)
    case None => "unknown"
  }

  /** The voltage part of getBatteryHealth: the number after `voltage:`, 0
      when there is none. */
  function VoltageNow(result: string): nat
  {
    match FirstNumber(result, VoltagePattern)
    case Some(n) => n
    case None => 0
  }

  /** The current part of getBatteryHealth: the signed number after
      `current now:` over 1000, 0 when there is none. */
  function CurrentNow(result: string): real
  {
    match Search(result, CurrentPattern)
    case Some(groups) =>
      CurrentPatternGroups();
      SearchGroups(result, CurrentPattern);
      SignedValue(groups[0], groups[1]) as real / 1000.0
    case None => 0.0
  }

  /** What the current pattern captures: an empty or a minus sign, then
      digits. */
  lemma CurrentCaptures(result: string)
    requires Search(result, CurrentPattern).Some?
    ensures var groups := Search(result, CurrentPattern).value;
            |groups| == 2 && (groups[0] == "" || groups[0] == "-") && IsDigits(groups[1])
  {
    CurrentPatternGroups();
    SearchGroups(result, CurrentPattern);
    var groups := Search(result, CurrentPattern).value;
    assert Fits(groups[0], Groups(CurrentPattern)[0]);
    assert Fits(groups[1], Groups(CurrentPattern)[1]);
    if groups[0] != "" {
      assert groups[0][0] == '-';
      assert groups[0] == "-";
    }
  }

  /** On a non-blank dump the health is the word after the first `health:`,
      lower-cased, or `unknown` when there is none. */
  lemma HealthOfWord(result: string)
    requires !IsBlank(result)
    ensures var h := BatteryHealth(result);
            match FirstGroup(result, HealthPattern)
            case None => h.health == "unknown"
            case Some(w) =>
              && Contains(result, "health:") && |w| >= 1
              && (forall i :: 0 <= i < |w| ==> IsWordChar(w[i]))
              && h.health == ToLowerAscii(w)
  {
    HealthPatternGroups();
    assert BatteryHealth(result).health == HealthWord(result);
    match FirstGroup(result, HealthPattern)
    case None =>
    case Some(w) =>
      assert Fits(w, Run(Word, 1, false, true));
      assert HealthPattern == [Lit("health:")] + HealthPattern[1..];
      LiteralFirst(result, "health:", HealthPattern[1..]);
  }

  /** On a non-blank dump the voltage is the number after the first
      `voltage:`, as parseInt reads it, or 0 when there is none. */
  lemma VoltageOfNumber(result: string)
    requires !IsBlank(result)
    ensures var h := BatteryHealth(result);
            match FirstNumber(result, VoltagePattern)
            case None => h.voltage == 0
            case Some(n) =>
              && Contains(result, "voltage:")
              && ParseInt(FirstGroup(result, VoltagePattern).value) == Some(h.voltage as int)
  {
    assert BatteryHealth(result).voltage == VoltageNow(result);
    match FirstNumber(result, VoltagePattern)
    case None =>
    case Some(n) =>
      FirstNumberParses(result, VoltagePattern);
      assert VoltagePattern == [Lit("voltage:")] + VoltagePattern[1..];
      LiteralFirst(result, "voltage:", VoltagePattern[1..]);
  }

  /** The current is the signed number after `current now:` divided by
      1000: an optional minus sign and a run of digits. */
  lemma HealthCurrent(result: string)
    requires !IsBlank(result)
    ensures var h := BatteryHealth(result);
            match Search(result, CurrentPattern)
            case None => h.current == 0.0
            case Some(groups) =>
              |groups| == 2 && (groups[0] == "" || groups[0] == "-") && IsDigits(groups[1])
              && h.current * 1000.0 == SignedValue(groups[0], groups[1]) as real
  {
    var h := BatteryHealth(result);
    assert h.current == CurrentNow(result);
    match Search(result, CurrentPattern)
    case None =>
    case Some(groups) =>
      CurrentCaptures(result);
      assert CurrentNow(result) == SignedValue(groups[0], groups[1]) as real / 1000.0;
  }

  // ---------------------------------------------------------------------
  // The collector's record

  class BatteryCollector {
    var previousLevel: Option<int>
    var previousTemperature: Option<Num>

    function State(): BatteryState
      reads this
    {
      BatteryState(previousLevel, previousTemperature)
    }

    constructor()
      ensures State() == NoHistory
    {
      previousLevel := None;
      previousTemperature := None;
    }

    /** The state part of resetBatteryCollector. */
    method Reset()
      modifies this
      ensures State() == NoHistory
    {
      previousLevel := None;
      previousTemperature := None;
    }

    /** generateSimulatedBatteryData. */
    method GenerateSimulatedBatteryData(rLevel: real, rTemp: real) returns (r: Reading)
      modifies this
      ensures (State(), r) == Simulated(old(State()), rLevel, rTemp)
    {
      var level: int;
      var temperature: Num;
      if previousLevel.Some? && previousTemperature.Some? {
        var levelDecrease := if rLevel < 0.7 then 0 else 1;
        level := if previousLevel.value - levelDecrease > 1 then previousLevel.value - levelDecrease else 1;
        var tempVariation := (rTemp - 0.5) * 1.0;
        temperature := Fixed1(Mix(1.0, previousTemperature.value, 1.0, Fin(tempVariation)));
        temperature := ClampNum(temperature, 20.0, 45.0);
      } else {
        level := (rLevel * 30.0).Floor + 70;
        temperature := Fin(ToFixed1(25.0 + rTemp * 10.0));
      }
      previousLevel, previousTemperature := Some(level), Some(temperature);
      r := Reading(level, temperature);
    }

    /** collectBatteryInfo. */
    method CollectBatteryInfo(exec: string -> string, rLevel: real, rTemp: real) returns (r: Reading)
      modifies this
      ensures (State(), r) == BatteryStep(old(State()), exec(BatteryCommand), rLevel, rTemp)
    {
      var result := exec(BatteryCommand);
      if IsBlank(result) {
        r := GenerateSimulatedBatteryData(rLevel, rTemp);
        return;
      }
      var level := ReadLevel(result);
      var temperature := ReadTemperature(result);
      if level.None? || temperature.None? {
        r := GenerateSimulatedBatteryData(rLevel, rTemp);
        return;
      }
      r := Accept(level.value, temperature.value, rLevel, rTemp);
    }

    /** The bounds check, smoothing and store of a parsed reading. */
    method Accept(parsedLevel: int, parsedTemperature: Num, rLevel: real, rTemp: real) returns (r: Reading)
      modifies this
      ensures (State(), r) == Accepted(old(State()), parsedLevel, parsedTemperature, rLevel, rTemp)
    {
      var level := parsedLevel;
      var temperature := parsedTemperature;
      if level < 0 || level > 100 {
        level := if previousLevel.Some? then previousLevel.value else (rLevel * 100.0).Floor;
      }
      if temperature.Fin? && (temperature.v < 0.0 || temperature.v > 60.0) {
        temperature := if previousTemperature.Some? then previousTemperature.value else Fin(25.0 + rTemp * 10.0);
      }
      if previousLevel.Some? && previousTemperature.Some? {
        level := Round(SmoothingFactor * level as real + (1.0 - SmoothingFactor) * previousLevel.value as real);
        temperature := Fixed1(Mix(SmoothingFactor, temperature, 1.0 - SmoothingFactor, previousTemperature.value));
      }
      previousLevel, previousTemperature := Some(level), Some(temperature);
      r := Reading(level, temperature);
    }
  }

  /** The three level forms tried in order. */
  method ReadLevel(result: string) returns (level: Option<int>)
    ensures level == LevelOf(result)
  {
    level := None;
    var m1 := FirstNumber(result, LevelPattern);
    if m1.Some? {
      level := Some(m1.value);
    }
    if level.None? {
      var m2 := FirstNumber(result, LevelPatternZh);
      if m2.Some? {
        level := Some(m2.value);
      }
    }
    if level.None? {
      var m3 := FirstNumber(result, LevelPatternEn);
      if m3.Some? {
        level := Some(m3.value);
      }
    }
  }

  /** The three temperature forms tried in order. */
  method ReadTemperature(result: string) returns (temperature: Option<Num>)
    ensures temperature == TemperatureOf(result)
  {
    temperature := None;
    var m1 := FirstNumber(result, TemperaturePattern);
    if m1.Some? {
      temperature := Some(Fin(m1.value as real / 10.0));
    }
    if temperature.None? {
      var m2 := FirstGroup(result, TemperaturePatternZh);
      if m2.Some? {
        temperature := Some(ParseFloat(m2.value));
      }
    }
    if temperature.None? {
      var m3 := FirstGroup(result, TemperaturePatternEn);
      if m3.Some? {
        temperature := Some(ParseFloat(m3.value));
      }
    }
  }
}
