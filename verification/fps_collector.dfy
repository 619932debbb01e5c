/**
  * The FPS collector: finds the window of the monitored app, reads the
  * frame-latency dump of SurfaceFlinger, keeps only frames newer than the
  * previous round and turns them into a frame rate and a count of janky
  * frames.
  *
  * Module-level state of the collector is the class `FpsCollector`; the
  * device's shell is the function `exec` from command text to output.
  */
module FpsCollector {
  import opened Util
  import opened Text
  import opened Pattern

  /** SurfaceFlinger's marker for a frame whose fence has not signalled,
      2^63 - 1. */
  const PendingFenceTimestamp: int := 0x7FFF_FFFF_FFFF_FFFF
  const NanosecondsPerSecond: real := 1_000_000_000.0
  const JankThresholdMs: int := 166
  /** The jank threshold in seconds, JANK_THRESHOLD_MS / 1000. */
  const JankThreshold: real := JankThresholdMs as real / 1000.0
  /** About two frame times at 24 fps, 83.3 ms, in seconds. */
  const TwoFrameTime: real := 83.3 / 1000.0

  /** One line of the latency dump in seconds: the app's desired present
      time, the vsync time and the time the frame was ready. */
  datatype Frame = Frame(desired: real, vsync: real, ready: real)

  datatype FrameData = FrameData(refreshPeriod: Option<real>, timestamps: seq<Frame>)

  datatype FpsResult = FpsResult(fps: int, jank: int)

  const NoFrameData := FrameData(None, [])
  const NoFps := FpsResult(0, 0)

  // ---------------------------------------------------------------------
  // Window discovery

  const FocusCommand := "dumpsys window windows | grep -E \"mCurrentFocus\""

  function SurfaceListCommand(packageName: string): string
  {
    "dumpsys SurfaceFlinger --list | grep " + packageName
  }

  function LatencyCommand(windowName: string): string
  {
    "dumpsys SurfaceFlinger --latency \"" + windowName + "\""
  }

  function LatencyClearCommand(windowName: string): string
  {
    "dumpsys SurfaceFlinger --latency-clear \"" + windowName + "\""
  }

  /** The groups of the focus-window regex: the token that follows the
      window's first white space, and the activity after a slash ("" when
      the optional group did not take part). */
  datatype FocusMatch = FocusMatch(focusPackage: string, activity: string)

  predicate IsSurfaceViewLine(line: string, packageName: string)
  {
    Contains(line, "SurfaceView") && Contains(line, packageName)
  }

  /** The window picked from the lines of the SurfaceFlinger layer list:
      the first line naming a SurfaceView of the package, else the last
      line, trimmed. */
  function SurfaceViewChoice(lines: seq<string>, packageName: string): string
    requires |lines| >= 1
  {
    if IsSurfaceViewLine(lines[0], packageName) || |lines| == 1 then Trim(lines[0])
    else SurfaceViewChoice(lines[1..], packageName)
  }

  /** The first line naming a SurfaceView of the package is the one
      chosen. */
  lemma {:induction false} SurfaceViewChoiceFirst(lines: seq<string>, packageName: string, i: nat)
    requires i < |lines| && IsSurfaceViewLine(lines[i], packageName)
    requires forall j :: 0 <= j < i ==> !IsSurfaceViewLine(lines[j], packageName)
    ensures SurfaceViewChoice(lines, packageName) == Trim(lines[i])
  {
    if i > 0 {
      assert !IsSurfaceViewLine(lines[0], packageName);
      assert forall j :: 0 <= j < i - 1 ==> lines[1..][j] == lines[j + 1];
      SurfaceViewChoiceFirst(lines[1..], packageName, i - 1);
    }
  }

  /** Without such a line, the last line is chosen. */
  lemma {:induction false} SurfaceViewChoiceLast(lines: seq<string>, packageName: string)
    requires |lines| >= 1
    requires forall j :: 0 <= j < |lines| ==> !IsSurfaceViewLine(lines[j], packageName)
    ensures SurfaceViewChoice(lines, packageName) == Trim(lines[|lines| - 1])
  {
    if |lines| > 1 {
      assert !IsSurfaceViewLine(lines[0], packageName);
      assert forall j :: 0 <= j < |lines| - 1 ==> lines[1..][j] == lines[j + 1];
      SurfaceViewChoiceLast(lines[1..], packageName);
    }
  }

  /** getSurfaceViewWindow: the package name itself when the list is empty. */
  function SurfaceViewWindow(packageName: string, exec: string -> string): string
  {
    var result := exec(SurfaceListCommand(packageName));
    if IsBlank(result) then packageName
    else SurfaceViewChoice(SplitOn(Trim(result), '\n'), packageName)
  }

  method GetSurfaceViewWindow(packageName: string, exec: string -> string) returns (w: string)
    ensures w == SurfaceViewWindow(packageName, exec)
  {
    var result := exec(SurfaceListCommand(packageName));
    if IsBlank(result) {
      return packageName;
    }
    var lines := SplitOn(Trim(result), '\n');
    var i := 0;
    while i < |lines|
      invariant 0 <= i <= |lines|
      invariant i < |lines| ==> SurfaceViewChoice(lines, packageName) == SurfaceViewChoice(lines[i..], packageName)
      invariant i == |lines| ==> SurfaceViewChoice(lines, packageName) == Trim(lines[|lines| - 1])
    {
      if IsSurfaceViewLine(lines[i], packageName) {
        return Trim(lines[i]);
      }
      if i + 1 < |lines| {
        assert lines[i..][1..] == lines[i + 1..];
      }
      i := i + 1;
    }
    return Trim(lines[|lines| - 1]);
  }

  /** `windowName.replace(/\$/g, '\\$')`: every dollar sign gets a backslash. */
  function EscapeDollar(s: string): (r: string)
    ensures |r| == |s| + multiset(s)['$']
    ensures '$' !in s ==> r == s
  {
    if s == [] then ""
    else
      assert s == [s[0]] + s[1..];
      (if s[0] == '$' then "\\$" else [s[0]]) + EscapeDollar(s[1..])
  }

  /** getFocusWindow, with the regex applied to the focus dump given as
      `focusRegex`. */
  function FocusWindow(packageName: string, exec: string -> string, focusRegex: string -> Option<FocusMatch>): string
  {
    var result := exec(FocusCommand);
    if IsBlank(result) then SurfaceViewWindow(packageName, exec)
    else match focusRegex(result)
      case None => SurfaceViewWindow(packageName, exec)
      case Some(m) =>
        if !Contains(m.focusPackage, packageName) then SurfaceViewWindow(packageName, exec)
        else EscapeDollar(if m.activity != "" then m.focusPackage + "/" + m.activity else m.focusPackage)
  }

  method GetFocusWindow(packageName: string, exec: string -> string, focusRegex: string -> Option<FocusMatch>)
    returns (w: string)
    ensures w == FocusWindow(packageName, exec, focusRegex)
  {
    var result := exec(FocusCommand);
    if IsBlank(result) {
      w := GetSurfaceViewWindow(packageName, exec);
      return;
    }
    var m := focusRegex(result);
    if m.None? || !Contains(m.value.focusPackage, packageName) {
      w := GetSurfaceViewWindow(packageName, exec);
      return;
    }
    w := if m.value.activity != "" then m.value.focusPackage + "/" + m.value.activity else m.value.focusPackage;
    w := EscapeDollar(w);
  }

  /** clearSurfaceFlingerLatencyData: true when the clear command printed
      nothing. */
  function ClearLatencyData(windowName: string, exec: string -> string): (ok: bool)
    ensures ok <==> windowName != "" && IsBlank(exec(LatencyClearCommand(windowName)))
  {
    if windowName == "" then false else IsBlank(exec(LatencyClearCommand(windowName)))
  }

  // ---------------------------------------------------------------------
  // The latency dump

  function ToSeconds(ns: int): real
  {
    ns as real / NanosecondsPerSecond
  }

  /** How one timestamp line of the dump is read: not three fields (the
      line is skipped), three fields of which one is not an integer (BigInt
      throws), a frame whose vsync is the pending-fence marker (skipped),
      or a frame. */
  datatype LineReading = NotAFrame | Malformed | Pending | Parsed(frame: Frame)

  function ReadLine(line: string): (r: LineReading)
    ensures r.Parsed? ==> r.frame.vsync != ToSeconds(PendingFenceTimestamp)
  {
    var f := Fields(line);
    if |f| != 3 then NotAFrame
    else
      var a := BigIntOf(f[0]);
      var b := BigIntOf(f[1]);
      var c := BigIntOf(f[2]);
      if a.None? || b.None? || c.None? then Malformed
      else if b.value == PendingFenceTimestamp then Pending
      else Parsed(Frame(ToSeconds(a.value), ToSeconds(b.value), ToSeconds(c.value)))
  }

  /** The frames of the timestamp lines, None when one of them is malformed. */
  function ParseFrames(lines: seq<string>): Option<seq<Frame>>
  {
    if lines == [] then Some([])
    else
      var rest := ParseFrames(lines[1..]);
      match ReadLine(lines[0])
      case Malformed => None
      case Parsed(f) => if rest.None? then None else Some([f] + rest.value)
      case _ => rest
  }

  lemma {:induction false} ParseFramesFails(lines: seq<string>)
    ensures ParseFrames(lines).None? <==> exists i :: 0 <= i < |lines| && ReadLine(lines[i]).Malformed?
  {
    if lines != [] {
      var tail := lines[1..];
      ParseFramesFails(tail);
      assert forall i :: 1 <= i < |lines| ==> lines[i] == tail[i - 1];
      if ParseFrames(lines).None? && !ReadLine(lines[0]).Malformed? {
        var i :| 0 <= i < |tail| && ReadLine(tail[i]).Malformed?;
        assert ReadLine(lines[i + 1]).Malformed?;
      }
    }
  }

  lemma {:induction false} ParseFramesSound(lines: seq<string>)
    requires ParseFrames(lines).Some?
    ensures |ParseFrames(lines).value| <= |lines|
    ensures forall f :: f in ParseFrames(lines).value ==>
              exists i :: 0 <= i < |lines| && ReadLine(lines[i]) == Parsed(f)
  {
    if lines != [] {
      var tail := lines[1..];
      ParseFramesSound(tail);
      forall f | f in ParseFrames(lines).value
        ensures exists i :: 0 <= i < |lines| && ReadLine(lines[i]) == Parsed(f)
      {
        if ReadLine(lines[0]) != Parsed(f) {
          assert f in ParseFrames(tail).value;
          var i :| 0 <= i < |tail| && ReadLine(tail[i]) == Parsed(f);
          assert lines[i + 1] == tail[i];
        }
      }
    }
  }

  /** The lines of a dump, after `\r\n` is normalised to `\n`. */
  function DumpLines(output: string): seq<string>
  {
    SplitOn(NormalizeNewlines(output), '\n')
  }

  /** The SurfaceView branch of getSurfaceFlingerFrameData on the output of
      the latency command. */
  function LatencyData(output: string): (d: FrameData)
    ensures d.refreshPeriod.None? ==> d.timestamps == []
    ensures d.refreshPeriod.Some? ==> d.refreshPeriod.value >= 0.0
  {
    if IsBlank(output) then NoFrameData
    else
      var lines := DumpLines(output);
      if |lines| <= 1 || !IsDigits(lines[0]) then NoFrameData
      else match ParseFrames(lines[2..])
        case None => NoFrameData
        case Some(frames) => FrameData(Some(DigitsValue(lines[0]) as real / NanosecondsPerSecond), frames)
  }

  /** The dump yields data exactly when it is not blank, its first line is
      a number, and none of its timestamp lines (from the third on) has
      three fields that are not all integers. */
  lemma LatencyDataAccepted(output: string)
    ensures var lines := DumpLines(output);
            LatencyData(output).refreshPeriod.Some? <==>
              !IsBlank(output) && |lines| > 1 && IsDigits(lines[0])
              && forall i :: 2 <= i < |lines| ==> !ReadLine(lines[i]).Malformed?
  {
    var lines := DumpLines(output);
    if !IsBlank(output) && |lines| > 1 && IsDigits(lines[0]) {
      var tail := lines[2..];
      assert forall i :: 2 <= i < |lines| ==> lines[i] == tail[i - 2];
      ParseFramesFails(tail);
      if ParseFrames(tail).None? {
        var i :| 0 <= i < |tail| && ReadLine(tail[i]).Malformed?;
        assert ReadLine(lines[i + 2]).Malformed?;
      }
    }
  }

  /** Every frame comes from a timestamp line of the dump, read as three
      integers of nanoseconds whose vsync is not the pending-fence marker. */
  lemma LatencyDataFrames(output: string)
    ensures var d := LatencyData(output);
            forall k :: 0 <= k < |d.timestamps| ==>
              exists i :: 2 <= i < |DumpLines(output)| && ReadLine(DumpLines(output)[i]) == Parsed(d.timestamps[k])
  {
    var d := LatencyData(output);
    var lines := DumpLines(output);
    if d.refreshPeriod.Some? {
      var tail := lines[2..];
      ParseFramesSound(tail);
      forall k | 0 <= k < |d.timestamps|
        ensures exists i :: 2 <= i < |lines| && ReadLine(lines[i]) == Parsed(d.timestamps[k])
      {
        var i :| 0 <= i < |tail| && ReadLine(tail[i]) == Parsed(d.timestamps[k]);
        assert ReadLine(lines[i + 2]) == Parsed(d.timestamps[k]);
      }
    }
  }

  /** Prefix `done` in front of the frames still to be parsed. */
  function Prepend(done: seq<Frame>, rest: Option<seq<Frame>>): Option<seq<Frame>>
  {
    if rest.None? then None else Some(done + rest.value)
  }

  lemma ParseFramesAt(lines: seq<string>, i: nat)
    requires i < |lines|
    ensures var rest := ParseFrames(lines[i + 1..]);
            ParseFrames(lines[i..]) ==
              match ReadLine(lines[i])
              case Malformed => None
              case Parsed(f) => if rest.None? then None else Some([f] + rest.value)
              case _ => rest
  {
    assert lines[i..][1..] == lines[i + 1..];
    assert lines[i..][0] == lines[i];
  }

  lemma PrependNothing(rest: Option<seq<Frame>>)
    ensures Prepend([], rest) == rest
  {
    if rest.Some? {
      assert [] + rest.value == rest.value;
    }
  }

  lemma PrependOne(done: seq<Frame>, f: Frame, rest: Option<seq<Frame>>)
    ensures Prepend(done + [f], rest) == Prepend(done, if rest.None? then None else Some([f] + rest.value))
  {
    if rest.Some? {
      assert done + [f] + rest.value == done + ([f] + rest.value);
    }
  }

  /** getSurfaceFlingerFrameData(windowName, true). */
  method GetSurfaceFlingerFrameData(windowName: string, exec: string -> string) returns (d: FrameData)
    ensures d == if windowName == "" then NoFrameData else LatencyData(exec(LatencyCommand(windowName)))
  {
    if windowName == "" {
      return NoFrameData;
    }
    var results := exec(LatencyCommand(windowName));
    if IsBlank(results) {
      return NoFrameData;
    }
    var lines := DumpLines(results);
    if |lines| <= 1 || !IsDigits(lines[0]) {
      return NoFrameData;
    }
    var refreshPeriod := DigitsValue(lines[0]) as real / NanosecondsPerSecond;
    var timestamps := ReadTimestamps(lines);
    if timestamps.None? {
      return NoFrameData;
    }
    d := FrameData(Some(refreshPeriod), timestamps.value);
  }

  /** The loop of getSurfaceFlingerFrameData over the lines from the third
      on; None when BigInt throws. */
  method ReadTimestamps(lines: seq<string>) returns (frames: Option<seq<Frame>>)
    requires |lines| >= 2
    ensures frames == ParseFrames(lines[2..])
  {
    var timestamps: seq<Frame> := [];
    var i := 2;
    PrependNothing(ParseFrames(lines[2..]));
    while i < |lines|
      invariant 2 <= i <= |lines|
      invariant Prepend(timestamps, ParseFrames(lines[i..])) == ParseFrames(lines[2..])
    {
      ParseFramesAt(lines, i);
      var reading := ReadLine(lines[i]);
      if reading.Malformed? {
        return None;
      }
      if reading.Parsed? {
        PrependOne(timestamps, reading.frame, ParseFrames(lines[i + 1..]));
        timestamps := timestamps + [reading.frame];
      }
      i := i + 1;
    }
    assert lines[|lines|..] == [];
    assert timestamps + [] == timestamps;
    frames := Some(timestamps);
  }

  // ---------------------------------------------------------------------
  // Janky frames

  /** calculateJanky from index i on, `temp` being the vsync the next frame
      is compared with (0 means none yet). */
  function JankyFrom(ts: seq<Frame>, i: nat, temp: real): nat
    requires i <= |ts|
    decreases |ts| - i
  {
    if i == |ts| then 0
    else if temp == 0.0 then JankyFrom(ts, i + 1, ts[i].vsync)
    else (if ts[i].vsync - temp > JankThreshold then 1 else 0) + JankyFrom(ts, i + 1, ts[i].vsync)
  }

  function Janky(ts: seq<Frame>): nat
  {
    JankyFrom(ts, 0, 0.0)
  }

  method CalculateJanky(ts: seq<Frame>) returns (jank: nat)
    ensures jank == Janky(ts)
  {
    var tempstamp := 0.0;
    jank := 0;
    var i := 0;
    while i < |ts|
      invariant 0 <= i <= |ts|
      invariant jank + JankyFrom(ts, i, tempstamp) == Janky(ts)
    {
      if tempstamp == 0.0 {
        tempstamp := ts[i].vsync;
        i := i + 1;
        continue;
      }
      var costtime := ts[i].vsync - tempstamp;
      if costtime > JankThreshold {
        jank := jank + 1;
      }
      tempstamp := ts[i].vsync;
      i := i + 1;
    }
  }

  /** The gap between the vsync of frame k and of frame k - 1. */
  function Gap(ts: seq<Frame>, k: nat): real
    requires 1 <= k < |ts|
  {
    ts[k].vsync - ts[k - 1].vsync
  }

  /** The number of frames k >= i whose gap to the previous frame exceeds
      the jank threshold. */
  function LongGaps(ts: seq<Frame>, i: nat): nat
    requires 1 <= i <= |ts|
    decreases |ts| - i
  {
    if i == |ts| then 0 else (if Gap(ts, i) > JankThreshold then 1 else 0) + LongGaps(ts, i + 1)
  }

  /** Every frame but the last has a non-zero vsync, so the zero that
      marks "no previous frame" never comes from the data. */
  predicate NonZeroVsyncs(ts: seq<Frame>)
  {
    forall k :: 0 <= k < |ts| - 1 ==> ts[k].vsync != 0.0
  }

  lemma {:induction false} JankyFromCountsGaps(ts: seq<Frame>, i: nat)
    requires 1 <= i <= |ts| && NonZeroVsyncs(ts)
    ensures JankyFrom(ts, i, ts[i - 1].vsync) == LongGaps(ts, i)
    decreases |ts| - i
  {
    if i < |ts| {
      JankyFromCountsGaps(ts, i + 1);
    }
  }

  /** With no zero vsync in the data, calculateJanky counts the gaps
      between consecutive frames longer than 166 ms. */
  lemma JankyCountsLongGaps(ts: seq<Frame>)
    requires |ts| >= 1 && NonZeroVsyncs(ts)
    ensures Janky(ts) == LongGaps(ts, 1)
  {
    if |ts| > 1 {
      assert Janky(ts) == JankyFrom(ts, 1, ts[0].vsync);
      JankyFromCountsGaps(ts, 1);
    } else {
      assert JankyFrom(ts, 1, ts[0].vsync) == 0;
    }
  }

  lemma {:induction false} JankyFromBound(ts: seq<Frame>, i: nat, temp: real)
    requires i < |ts|
    ensures JankyFrom(ts, i, temp) <= |ts| - i - (if temp == 0.0 then 1 else 0)
    decreases |ts| - i
  {
    if i + 1 < |ts| {
      JankyFromBound(ts, i + 1, ts[i].vsync);
    }
  }

  /** The first frame is never janky. */
  lemma JankyBound(ts: seq<Frame>)
    requires |ts| >= 1
    ensures Janky(ts) <= |ts| - 1
  {
    JankyFromBound(ts, 0, 0.0);
  }

  /** The jank rule of calculateJankyNew from the fifth frame on: the gap
      to the previous frame exceeds both twice the mean of the three gaps
      before it and 83.3 ms. */
  predicate AdaptiveJank(ts: seq<Frame>, i: nat)
    requires 4 <= i < |ts|
  {
    var tempframetime := ((ts[i - 3].vsync - ts[i - 4].vsync) + (ts[i - 2].vsync - ts[i - 3].vsync)
                          + (ts[i - 1].vsync - ts[i - 2].vsync)) / 3.0 * 2.0;
    var currentframetime := ts[i].vsync - ts[i - 1].vsync;
    currentframetime > tempframetime && currentframetime > TwoFrameTime
  }

  /** calculateJankyNew from index i on. */
  function JankyNewFrom(ts: seq<Frame>, i: nat, temp: real): nat
    requires i <= |ts|
    decreases |ts| - i
  {
    if i == |ts| then 0
    else if i <= 3 then
      if temp == 0.0 then JankyNewFrom(ts, i + 1, ts[i].vsync)
      else (if ts[i].vsync - temp > JankThreshold then 1 else 0) + JankyNewFrom(ts, i + 1, ts[i].vsync)
    else (if AdaptiveJank(ts, i) then 1 else 0) + JankyNewFrom(ts, i + 1, temp)
  }

  function JankyNew(ts: seq<Frame>): nat
  {
    JankyNewFrom(ts, 0, 0.0)
  }

  method CalculateJankyNew(ts: seq<Frame>) returns (jank: nat)
    ensures jank == JankyNew(ts)
  {
    var tempstamp := 0.0;
    jank := 0;
    var index := 0;
    while index < |ts|
      invariant 0 <= index <= |ts|
      invariant jank + JankyNewFrom(ts, index, tempstamp) == JankyNew(ts)
    {
      if index <= 3 {
        if tempstamp == 0.0 {
          tempstamp := ts[index].vsync;
          index := index + 1;
          continue;
        }
        var costtime := ts[index].vsync - tempstamp;
        if costtime > JankThreshold {
          jank := jank + 1;
        }
        tempstamp := ts[index].vsync;
      } else {
        var currentstamp := ts[index].vsync;
        var lastonestamp := ts[index - 1].vsync;
        var lasttwostamp := ts[index - 2].vsync;
        var lastthreestamp := ts[index - 3].vsync;
        var lastfourstamp := ts[index - 4].vsync;
        var tempframetime := ((lastthreestamp - lastfourstamp) + (lasttwostamp - lastthreestamp)
                              + (lastonestamp - lasttwostamp)) / 3.0 * 2.0;
        var currentframetime := currentstamp - lastonestamp;
        if currentframetime > tempframetime && currentframetime > TwoFrameTime {
          jank := jank + 1;
        }
      }
      index := index + 1;
    }
  }

  lemma {:induction false} JankyNewFromShort(ts: seq<Frame>, i: nat, temp: real)
    requires i <= |ts| <= 4
    ensures JankyNewFrom(ts, i, temp) == JankyFrom(ts, i, temp)
    decreases |ts| - i
  {
    if i < |ts| {
      JankyNewFromShort(ts, i + 1, ts[i].vsync);
    }
  }

  /** On four frames or fewer the adaptive rule is never reached, so both
      classifiers agree. */
  lemma JankyNewAgreesOnShort(ts: seq<Frame>)
    requires |ts| <= 4
    ensures JankyNew(ts) == Janky(ts)
  {
    JankyNewFromShort(ts, 0, 0.0);
  }

  /** The number of frames k >= i that the adaptive rule calls janky. */
  function AdaptiveJanks(ts: seq<Frame>, i: nat): nat
    requires 4 <= i <= |ts|
    decreases |ts| - i
  {
    if i == |ts| then 0 else (if AdaptiveJank(ts, i) then 1 else 0) + AdaptiveJanks(ts, i + 1)
  }

  lemma {:induction false} JankyNewFromTail(ts: seq<Frame>, i: nat, temp: real)
    requires 4 <= i <= |ts|
    ensures JankyNewFrom(ts, i, temp) == AdaptiveJanks(ts, i)
    decreases |ts| - i
  {
    if i < |ts| {
      JankyNewFromTail(ts, i + 1, temp);
    }
  }

  lemma {:induction false} JankyNewFromHead(ts: seq<Frame>, i: nat, temp: real)
    requires i <= 4 <= |ts|
    ensures JankyNewFrom(ts, i, temp) == JankyFrom(ts[..4], i, temp) + AdaptiveJanks(ts, 4)
    decreases 4 - i
  {
    if i == 4 {
      JankyNewFromTail(ts, 4, temp);
    } else {
      assert ts[..4][i] == ts[i];
      JankyNewFromHead(ts, i + 1, ts[i].vsync);
    }
  }

  /** calculateJankyNew = the simple rule on the first four frames plus the
      adaptive rule on every later frame. */
  lemma JankyNewSplits(ts: seq<Frame>)
    requires |ts| >= 4
    ensures JankyNew(ts) == Janky(ts[..4]) + AdaptiveJanks(ts, 4)
  {
    JankyNewFromHead(ts, 0, 0.0);
  }

  lemma {:induction false} AdaptiveJanksBound(ts: seq<Frame>, i: nat)
    requires 4 <= i <= |ts|
    ensures AdaptiveJanks(ts, i) <= |ts| - i
    decreases |ts| - i
  {
    if i < |ts| {
      AdaptiveJanksBound(ts, i + 1);
    }
  }

  lemma JankyNewBound(ts: seq<Frame>)
    requires |ts| >= 1
    ensures JankyNew(ts) <= |ts| - 1
  {
    if |ts| <= 4 {
      JankyNewAgreesOnShort(ts);
      JankyBound(ts);
    } else {
      JankyNewSplits(ts);
      JankyBound(ts[..4]);
      AdaptiveJanksBound(ts, 4);
    }
  }

  /** Two gaps of 100 ms and 200 ms: only the second is janky. */
  lemma JankyExampleOneLongGap()
    ensures Janky([Frame(0.0, 1.0, 0.0), Frame(0.0, 1.1, 0.0), Frame(0.0, 1.3, 0.0)]) == 1
  {
    var ts := [Frame(0.0, 1.0, 0.0), Frame(0.0, 1.1, 0.0), Frame(0.0, 1.3, 0.0)];
    JankyCountsLongGaps(ts);
  }

  /** Two gaps of 100 ms and 150 ms: none is janky. */
  lemma JankyExampleNoLongGap()
    ensures Janky([Frame(0.0, 1.0, 0.0), Frame(0.0, 1.1, 0.0), Frame(0.0, 1.25, 0.0)]) == 0
  {
    var ts := [Frame(0.0, 1.0, 0.0), Frame(0.0, 1.1, 0.0), Frame(0.0, 1.25, 0.0)];
    JankyCountsLongGaps(ts);
  }

  // ---------------------------------------------------------------------
  // Frame rate

  /** Seconds between the vsync of the first and the last frame. */
  function Span(ts: seq<Frame>): real
    requires |ts| >= 1
  {
    ts[|ts| - 1].vsync - ts[0].vsync
  }

  /** calculateResults. */
  function CalculateResults(refreshPeriod: real, ts: seq<Frame>): (r: FpsResult)
    ensures |ts| == 0 ==> r == NoFps
    ensures |ts| >= 1 ==> 0 <= r.jank <= |ts| - 1
    ensures |ts| >= 1 && Span(ts) <= 0.0 ==> r == FpsResult(1, 0)
    ensures |ts| >= 2 && Span(ts) > 0.0 ==>
              var rate := (|ts| - 1) as real / Span(ts);
              0 <= r.fps && rate - 0.5 < r.fps as real <= rate + 0.5 && r.jank == JankyNew(ts)
  {
    var n := |ts|;
    if n == 0 then NoFps
    else if n == 1 then FpsResult(1, 0)
    else if n <= 4 then
      var seconds := ts[n - 1].vsync - ts[0].vsync;
      if seconds > 0.0 then
        JankyBound(ts);
        JankyNewAgreesOnShort(ts);
        FpsResult(Round((n - 1) as real / seconds), Janky(ts))
      else FpsResult(1, 0)
    else
      var seconds := ts[n - 1].vsync - ts[0].vsync;
      if seconds > 0.0 then
        JankyNewBound(ts);
        FpsResult(Round((n - 1) as real / seconds), JankyNew(ts))
      else FpsResult(1, 0)
  }

  /** `timestamps.filter(ts => ts[1] > lastTimestamp)`. */
  function Newer(ts: seq<Frame>, last: real): (r: seq<Frame>)
    ensures |r| <= |ts|
    ensures forall f :: f in r <==> f in ts && f.vsync > last
  {
    if ts == [] then []
    else (if ts[0].vsync > last then [ts[0]] else []) + Newer(ts[1..], last)
  }

  // ---------------------------------------------------------------------
  // Rounds

  /** The part of the collector's record that collectFps reads and writes. */
  datatype FpsState = FpsState(isFirst: bool, lastTimestamp: real)

  /** A non-first round of collectFps after the frame data was read. */
  function Advance(lastTimestamp: real, data: FrameData): (FpsState, FpsResult)
  {
    var idle := (FpsState(false, lastTimestamp), NoFps);
    if data.refreshPeriod.None? || data.refreshPeriod.value == 0.0 || |data.timestamps| < 2 then idle
    else
      var newer := if lastTimestamp > 0.0 then Newer(data.timestamps, lastTimestamp) else data.timestamps;
      if |newer| < 2 then idle
      else (FpsState(false, newer[|newer| - 1].vsync), CalculateResults(data.refreshPeriod.value, newer))
  }

  /** collectFps as a function of the collector's state before the call. */
  function FpsStep(st: FpsState, packageName: string, exec: string -> string,
                   focusRegex: string -> Option<FocusMatch>): (FpsState, FpsResult)
  {
    if packageName == "" then (st, NoFps)
    else
      var windowName := FocusWindow(packageName, exec, focusRegex);
      if windowName == "" then (st, NoFps)
      else if st.isFirst then (FpsState(false, 0.0), NoFps)
      else Advance(st.lastTimestamp, LatencyData(exec(LatencyCommand(windowName))))
  }

  /** The first round after a reset only clears the latency buffer: it
      reports nothing and starts with no baseline. */
  lemma FirstRoundPrimes(st: FpsState, packageName: string, exec: string -> string,
                         focusRegex: string -> Option<FocusMatch>)
    requires st.isFirst && packageName != "" && FocusWindow(packageName, exec, focusRegex) != ""
    ensures FpsStep(st, packageName, exec, focusRegex) == (FpsState(false, 0.0), NoFps)
  {
  }

  /** A round with a valid refresh period and at least two frames drawn
      after the baseline: the one that measures a rate. */
  predicate Reports(last: real, data: FrameData)
  {
    data.refreshPeriod.Some? && data.refreshPeriod.value != 0.0 && |Newer(data.timestamps, last)| >= 2
  }

  /** A dump with at most one frame drawn after the baseline (in
      particular one replaying only frames already seen) reports nothing
      and keeps the baseline exactly. */
  lemma ReplayReportsNothing(last: real, data: FrameData)
    requires last > 0.0
    requires |Newer(data.timestamps, last)| < 2
    ensures Advance(last, data) == (FpsState(false, last), NoFps)
  {
  }

  /** Once a baseline exists it only moves forward. A round that measures
      sets it to the vsync of the last frame it counted, which lies past
      the old one; every other round keeps it. */
  lemma BaselineAdvances(last: real, data: FrameData)
    requires last > 0.0
    ensures Advance(last, data).0.lastTimestamp >= last
    ensures var newer := Newer(data.timestamps, last);
            Reports(last, data) ==> Advance(last, data).0.lastTimestamp == newer[|newer| - 1].vsync > last
    ensures !Reports(last, data) ==> Advance(last, data) == (FpsState(false, last), NoFps)
    ensures Advance(last, data).1 != NoFps ==> Advance(last, data).0.lastTimestamp > last
  {
    var newer := Newer(data.timestamps, last);
    if |newer| >= 1 {
      assert newer[|newer| - 1] in newer;
    }
  }

  /** A round that reports a rate counts only frames drawn after the
      baseline, at least two of them. */
  lemma ReportedFramesAreNew(last: real, data: FrameData)
    requires last > 0.0 && Advance(last, data).1 != NoFps
    ensures var newer := Newer(data.timestamps, last);
            |newer| >= 2 && Advance(last, data).1 == CalculateResults(data.refreshPeriod.value, newer)
            && forall k :: 0 <= k < |newer| ==> newer[k].vsync > last
  {
    var newer := Newer(data.timestamps, last);
    forall k | 0 <= k < |newer| ensures newer[k].vsync > last {
      assert newer[k] in newer;
    }
  }

  // ---------------------------------------------------------------------
  // gfxinfo

  datatype GfxInfo = GfxInfo(totalFrames: int, jankFrames: int, fps: int)

  const TotalFramesPattern := NumberAfter("Total frames rendered:")
  const JankyFramesPattern := [Lit("Janky frames:"), Run(Space, 0, false, false), Run(Digit, 1, false, true),
                               Run(Space, 0, false, false), Lit("("), Run(Digit, 1, false, true), Lit("."),
                               Run(Digit, 1, false, true), Lit("%)")]

  /** parseGfxInfo, given the collector's previous total and timestamp and
      the current time in milliseconds. */
  function ParseGfxInfo(output: string, prevTotalFrames: int, prevTimestamp: int, now: int): (g: GfxInfo)
    ensures 0 <= g.fps <= 120
    ensures g.totalFrames == 0 || prevTimestamp <= 0 || prevTotalFrames <= 0 ==> g.fps == 0
  {
    var totalFrames := match FirstNumber(output, TotalFramesPattern) case Some(n) => n case None => 0;
    var jankFrames := match FirstNumber(output, JankyFramesPattern) case Some(n) => n case None => 0;
    if totalFrames == 0 then GfxInfo(totalFrames, jankFrames, 0)
    else if prevTimestamp > 0 && prevTotalFrames > 0 then
      var frameDiff := totalFrames - prevTotalFrames;
      var timeDiff := (now - prevTimestamp) as real / 1000.0;
      if frameDiff > 0 && timeDiff > 0.0 then
        var rounded := Round(frameDiff as real / timeDiff);
        GfxInfo(totalFrames, jankFrames, if 120 < (if 0 < rounded then rounded else 0) then 120
                                         else (if 0 < rounded then rounded else 0))
      else GfxInfo(totalFrames, jankFrames, 0)
    else GfxInfo(totalFrames, jankFrames, 0)
  }

  // ---------------------------------------------------------------------
  // The collector's record

  class FpsCollector {
    var totalFrames: int
    var jankFrames: int
    var timestamp: int
    var frameTimestamps: seq<Frame>
    var lastTimestamp: real
    var isFirst: bool

    /** Nothing in the collector writes the gfxinfo part of the record, so
        it keeps its initial value. */
    predicate Valid()
      reads this
    {
      totalFrames == 0 && jankFrames == 0 && timestamp == 0 && frameTimestamps == []
    }

    function State(): FpsState
      reads this
    {
      FpsState(isFirst, lastTimestamp)
    }

    constructor()
      ensures Valid() && isFirst && lastTimestamp == 0.0
    {
      totalFrames := 0;
      jankFrames := 0;
      timestamp := 0;
      frameTimestamps := [];
      lastTimestamp := 0.0;
      isFirst := true;
    }

    /** resetFpsCollector. */
    method Reset()
      modifies this
      ensures Valid() && isFirst && lastTimestamp == 0.0
    {
      totalFrames := 0;
      jankFrames := 0;
      timestamp := 0;
      frameTimestamps := [];
      lastTimestamp := 0.0;
      isFirst := true;
    }

    /** collectFps. */
    method CollectFps(packageName: string, exec: string -> string, focusRegex: string -> Option<FocusMatch>)
      returns (r: FpsResult)
      requires Valid()
      modifies this
      ensures Valid()
      ensures (State(), r) == FpsStep(old(State()), packageName, exec, focusRegex)
    {
      if packageName == "" {
        return NoFps;
      }
      var windowName := GetFocusWindow(packageName, exec, focusRegex);
      if windowName == "" {
        return NoFps;
      }
      if isFirst {
        var _ := ClearLatencyData(windowName, exec);
        isFirst := false;
        lastTimestamp := 0.0;
        return NoFps;
      }
      var data := GetSurfaceFlingerFrameData(windowName, exec);
      var _ := ClearLatencyData(windowName, exec);
      r := NextRound(data);
    }

    /** The rest of a non-first round of collectFps, once the frame data
        has been read. */
    method NextRound(data: FrameData) returns (r: FpsResult)
      requires Valid() && !isFirst
      modifies this
      ensures Valid()
      ensures (State(), r) == Advance(old(lastTimestamp), data)
    {
      if data.refreshPeriod.None? || data.refreshPeriod.value == 0.0 || |data.timestamps| < 2 {
        return NoFps;
      }
      var newTimestamps := data.timestamps;
      if lastTimestamp > 0.0 {
        newTimestamps := Newer(data.timestamps, lastTimestamp);
      }
      if |newTimestamps| < 2 {
        return NoFps;
      }
      lastTimestamp := newTimestamps[|newTimestamps| - 1].vsync;
      r := CalculateResults(data.refreshPeriod.value, newTimestamps);
    }

    /** parseGfxInfo against this record: since the record's timestamp is
        never written, the computed frame rate is always 0. */
    function GfxInfoNow(output: string, now: int): (g: GfxInfo)
      requires Valid()
      reads this
      ensures g.fps == 0
      ensures g == ParseGfxInfo(output, totalFrames, timestamp, now)
    {
      ParseGfxInfo(output, totalFrames, timestamp, now)
    }
  }
}
