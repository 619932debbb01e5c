/**
  * The foreground-app collector: three ways of asking the device which
  * application is in front (the resumed activity, the top activity and the
  * focused window), tried in that order, the first plausible package
  * winning; then its label, its pid and whether it is a system package.
  *
  * Each way applies a short list of regular expressions with lazy
  * quantifiers to the command output. The regex engine is not modelled:
  * `find(source, text, i)` is what the i-th pattern of that way captured
  * in the text, if it matched. The label pattern has no lazy part and is
  * matched by the Pattern module.
  */
module ForegroundAppCollector {
  import opened Util
  import opened Text
  import opened Pattern

  /** The three ways, in the order collectForegroundApp tries them. */
  datatype Source = Activity | Top | Focus

  /** What a pattern captured: the package and the activity group, "" when
      the pattern has no activity group. */
  datatype Capture = Capture(packageName: string, activity: string)

  /** The result of one getForegroundAppBy* call. */
  datatype Candidate = Candidate(packageName: string, activityName: string, source: string)

  type Finder = (Source, string, nat) -> Option<Capture>

  const ActivityCommand := "dumpsys activity activities | grep -E \"mResumedActivity|ResumedActivity\" | head -3"
  const TopCommand := "dumpsys activity top | head -30"
  const FocusCommand := "dumpsys window windows | grep -E \"mCurrentFocus|mFocusedApp\" | head -3"

  function Command(source: Source): string
  {
    match source
    case Activity => ActivityCommand
    case Top => TopCommand
    case Focus => FocusCommand
  }

  /** How many patterns each way tries. */
  function PatternCount(source: Source): nat
  {
    match source
    case Activity => 4
    case Top => 3
    case Focus => 3
  }

  function SourceName(source: Source): string
  {
    match source
    case Activity => "activity"
    case Top => "top"
    case Focus => "focus"
  }

  /** The basic package check of the activity and top ways. */
  predicate PackageShaped(packageName: string)
  {
    Contains(packageName, ".") && |packageName| > 3
  }

  /** The stricter check of the focus way. */
  predicate FocusAccepts(packageName: string)
  {
    packageName != "null" && !Contains(packageName, "StatusBar") && Contains(packageName, ".") && |packageName| > 3
  }

  /** Whether a match is taken: the focus way also needs a non-empty first
      group before its check. */
  predicate Usable(source: Source, c: Capture)
  {
    match source
    case Focus => c.packageName != "" && FocusAccepts(c.packageName)
    case _ => PackageShaped(c.packageName)
  }

  /** The record a taken match gives: `pkg/activity`, or just `pkg` when
      the focus pattern captured no activity. */
  function CandidateFor(source: Source, c: Capture): Candidate
  {
    match source
    case Focus => Candidate(c.packageName, if c.activity != "" then c.packageName + "/" + c.activity else c.packageName, "focus")
    case _ => Candidate(c.packageName, c.packageName + "/" + c.activity, SourceName(source))
  }

  /** Whether the i-th pattern of a way matched and passed the check. */
  predicate Taken(source: Source, result: string, find: Finder, i: nat)
  {
    find(source, result, i).Some? && Usable(source, find(source, result, i).value)
  }

  /** The candidate of the first pattern, from the i-th on, whose match is
      taken. */
  function FirstCandidate(source: Source, result: string, find: Finder, i: nat): Option<Candidate>
    requires i <= PatternCount(source)
    decreases PatternCount(source) - i
  {
    if i == PatternCount(source) then None
    else
      var m := find(source, result, i);
      if m.Some? && Usable(source, m.value) then Some(CandidateFor(source, m.value))
      else FirstCandidate(source, result, find, i + 1)
  }

  /** The patterns are tried in order: a candidate comes from the first
      taken match, and there is none exactly when no match is taken. */
  lemma {:induction false} FirstCandidateIsFirstTaken(source: Source, result: string, find: Finder, i: nat)
    requires i <= PatternCount(source)
    ensures var r := FirstCandidate(source, result, find, i);
            r.Some? ==> exists k :: i <= k < PatternCount(source) && Taken(source, result, find, k)
                          && r.value == CandidateFor(source, find(source, result, k).value)
                          && forall j :: i <= j < k ==> !Taken(source, result, find, j)
    ensures FirstCandidate(source, result, find, i).None? <==> forall j :: i <= j < PatternCount(source) ==> !Taken(source, result, find, j)
    decreases PatternCount(source) - i
  {
    if i < PatternCount(source) && !Taken(source, result, find, i) {
      FirstCandidateIsFirstTaken(source, result, find, i + 1);
      var r := FirstCandidate(source, result, find, i);
      if r.Some? {
        var k :| i + 1 <= k < PatternCount(source) && Taken(source, result, find, k)
                 && r.value == CandidateFor(source, find(source, result, k).value)
                 && forall j :: i + 1 <= j < k ==> !Taken(source, result, find, j);
        assert forall j :: i <= j < k ==> !Taken(source, result, find, j);
      }
    }
  }

  /** getForegroundAppBy*: nothing for blank output, else the first taken
      match. */
  function CandidateOf(source: Source, result: string, find: Finder): (r: Option<Candidate>)
    ensures IsBlank(result) ==> r.None?
  {
    if IsBlank(result) then None else FirstCandidate(source, result, find, 0)
  }

  /** getForegroundAppByActivity, getForegroundAppByTop and
      getForegroundAppByFocus: one command, then the patterns in order
      until a match passes the way's check. */
  method GetForegroundAppBy(source: Source, exec: string -> string, find: Finder) returns (app: Option<Candidate>)
    ensures app == CandidateOf(source, exec(Command(source)), find)
  {
    var result := exec(Command(source));
    if IsBlank(result) {
      return None;
    }
    for i := 0 to PatternCount(source)
      invariant FirstCandidate(source, result, find, i) == FirstCandidate(source, result, find, 0)
    {
      var m := find(source, result, i);
      if m.Some? && Usable(source, m.value) {
        return Some(CandidateFor(source, m.value));
      }
    }
    return None;
  }

  /** A candidate passed its way's check: the focus way never yields
      "null", a StatusBar window or a name without a dot, and no way yields
      a name of three characters or fewer. */
  lemma CandidateChecked(source: Source, result: string, find: Finder)
    requires CandidateOf(source, result, find).Some?
    ensures var c := CandidateOf(source, result, find).value;
            && Contains(c.packageName, ".") && |c.packageName| > 3
            && c.source == SourceName(source)
            && (source == Focus ==> c.packageName != "null" && !Contains(c.packageName, "StatusBar"))
  {
    FirstCandidateIsFirstTaken(source, result, find, 0);
  }

  /** The activity name is `pkg/activity`, except for a focus match
      without an activity group, which gives the bare package. */
  lemma ActivityNameShape(source: Source, c: Capture)
    ensures var a := CandidateFor(source, c).activityName;
            (source != Focus || c.activity != "") <==> a == c.packageName + "/" + c.activity
  {
    if source == Focus && c.activity == "" {
      assert |c.packageName + "/" + c.activity| == |c.packageName| + 1;
    }
  }

  // ---------------------------------------------------------------------
  // collectForegroundApp

  /** The record collectForegroundApp returns; None is null. */
  datatype ForegroundApp = ForegroundApp(packageName: Option<string>, activityName: Option<string>, appName: Option<string>,
                                         pid: Option<string>, source: Option<string>, isSystemApp: bool)

  const NoApp := ForegroundApp(None, None, None, None, None, false)

  const Methods: seq<Source> := [Activity, Top, Focus]

  const SystemPrefixes: seq<string> := ["com.android.", "com.google.", "com.samsung.", "com.miui.", "com.xiaomi."]

  /** A package of the platform or of a phone maker. */
  predicate IsSystemApp(packageName: string)
  {
    exists i :: 0 <= i < |SystemPrefixes| && StartsWith(packageName, SystemPrefixes[i])
  }

  /** What the way yields on this device. */
  function Way(source: Source, exec: string -> string, find: Finder): Option<Candidate>
  {
    CandidateOf(source, exec(Command(source)), find)
  }

  /** The test collectForegroundApp puts a way's result to. */
  predicate Yields(c: Option<Candidate>)
  {
    c.Some? && c.value.packageName != ""
  }

  /** The first way, in the order of Methods, that yields a package. */
  function FirstApp(exec: string -> string, find: Finder): Option<Candidate>
  {
    var activity, top, focus := Way(Activity, exec, find), Way(Top, exec, find), Way(Focus, exec, find);
    if Yields(activity) then activity else if Yields(top) then top else if Yields(focus) then focus else None
  }

  const LabelPattern: seq<Elem> := [Lit("label="), Run(NotCommaOrSpace, 1, false, true)]

  lemma LabelPatternGroups()
    ensures Groups(LabelPattern) == [Run(NotCommaOrSpace, 1, false, true)]
  {
    assert LabelPattern[1..][1..] == [];
    assert Groups(LabelPattern[1..]) == [Run(NotCommaOrSpace, 1, false, true)];
  }

  function DisplayNameCommand(packageName: string): string
  {
    "dumpsys package " + packageName + " | grep -m 1 \"label\" | head -1"
  }

  /** getAppDisplayName: the `label=` value of the package dump when there
      is one and it differs from the package name, else the package name. */
  function AppDisplayName(packageName: string, exec: string -> string): (name: string)
    ensures packageName != "" ==> name != ""
    ensures name == packageName || (!IsBlank(exec(DisplayNameCommand(packageName)))
                                    && FirstGroup(exec(DisplayNameCommand(packageName)), LabelPattern) == Some(name))
    ensures var result := exec(DisplayNameCommand(packageName));
            packageName != "" && !IsBlank(result) && FirstGroup(result, LabelPattern).Some?
            && FirstGroup(result, LabelPattern).value != packageName ==>
              name == FirstGroup(result, LabelPattern).value
  {
    if packageName == "" then packageName
    else
      var result := exec(DisplayNameCommand(packageName));
      if IsBlank(result) then packageName
      else
        LabelPatternGroups();
        match FirstGroup(result, LabelPattern)
        case Some(name) => if name != "" && name != packageName then name else packageName
        case None => packageName
  }

  function PidCommand(packageName: string): string
  {
    "ps -A | grep -m 1 " + packageName + " | grep -v grep | head -1"
  }

  /** getAppPid: the second column of the first process line, or null when
      there is no such line or it has a single column. */
  function AppPid(packageName: string, exec: string -> string): (pid: Option<string>)
    ensures pid.Some? <==> packageName != "" && !IsBlank(exec(PidCommand(packageName))) && |Fields(exec(PidCommand(packageName)))| >= 2
    ensures pid.Some? ==> pid.value == Fields(exec(PidCommand(packageName)))[1]
  {
    if packageName == "" then None
    else
      var result := exec(PidCommand(packageName));
      if IsBlank(result) then None
      else
        var parts := Fields(result);
        if |parts| >= 2 then Some(parts[1]) else None
  }

  /** The record for a found candidate: its label, its pid and the system
      check added. */
  function Describe(c: Candidate, exec: string -> string): ForegroundApp
  {
    var appName := AppDisplayName(c.packageName, exec);
    ForegroundApp(Some(c.packageName), Some(c.activityName), Some(if appName != "" then appName else c.packageName),
                  AppPid(c.packageName, exec), Some(c.source), IsSystemApp(c.packageName))
  }

  /** collectForegroundApp as a function of the device. */
  function ForegroundOf(exec: string -> string, find: Finder): ForegroundApp
  {
    match FirstApp(exec, find)
    case None => NoApp
    case Some(c) => Describe(c, exec)
  }

  /** collectForegroundApp: the ways in order, stopping at the first that
      yields a package; then the label, the pid and the system check. */
  method CollectForegroundApp(exec: string -> string, find: Finder) returns (app: ForegroundApp)
    ensures app == ForegroundOf(exec, find)
  {
    var foregroundApp: Option<Candidate> := None;
    for k := 0 to |Methods|
      invariant foregroundApp.None? && forall j :: 0 <= j < k ==> !Yields(Way(Methods[j], exec, find))
    {
      var result := GetForegroundAppBy(Methods[k], exec, find);
      if Yields(result) {
        assert result == FirstApp(exec, find) by {
          assert k == 1 ==> !Yields(Way(Methods[0], exec, find));
          assert k == 2 ==> !Yields(Way(Methods[0], exec, find)) && !Yields(Way(Methods[1], exec, find));
        }
        foregroundApp := result;
        break;
      }
    }
    if foregroundApp.None? {
      assert !Yields(Way(Methods[0], exec, find)) && !Yields(Way(Methods[1], exec, find)) && !Yields(Way(Methods[2], exec, find));
      return NoApp;
    }
    var c := foregroundApp.value;
    var appName := AppDisplayName(c.packageName, exec);
    var pid := AppPid(c.packageName, exec);
    app := ForegroundApp(Some(c.packageName), Some(c.activityName), Some(if appName != "" then appName else c.packageName),
                         pid, Some(c.source), IsSystemApp(c.packageName));
    assert app == Describe(c, exec);
  }

  // ---------------------------------------------------------------------
  // Properties

  /** When the resumed-activity way yields a package, it is the answer and
      the other two ways do not matter. */
  lemma ActivityWins(exec: string -> string, find: Finder)
    requires Way(Activity, exec, find).Some?
    ensures var c := Way(Activity, exec, find).value;
            var app := ForegroundOf(exec, find);
            app.packageName == Some(c.packageName) && app.source == Some("activity")
  {
    CandidateChecked(Activity, exec(Command(Activity)), find);
  }

  /** The focused window is consulted only when both activity ways give
      nothing. */
  lemma FocusIsLastResort(exec: string -> string, find: Finder)
    requires ForegroundOf(exec, find).source == Some("focus")
    ensures Way(Activity, exec, find).None? && Way(Top, exec, find).None?
    ensures ForegroundOf(exec, find).packageName == Some(Way(Focus, exec, find).value.packageName)
  {
    var a, t := Way(Activity, exec, find), Way(Top, exec, find);
    if a.Some? {
      CandidateChecked(Activity, exec(Command(Activity)), find);
    } else if t.Some? {
      CandidateChecked(Top, exec(Command(Top)), find);
    }
  }

  /** The record is all nulls, and not a system app, exactly when no way
      yields a candidate. */
  lemma NothingFound(exec: string -> string, find: Finder)
    ensures ForegroundOf(exec, find) == NoApp <==> forall s: Source :: Way(s, exec, find).None?
  {
    if forall s: Source :: Way(s, exec, find).None? {
    } else {
      var s: Source :| Way(s, exec, find).Some?;
      CandidateChecked(s, exec(Command(s)), find);
    }
  }

  /** Once a package is found, the app name is its label or, failing that,
      the package itself, and the pid is the second column of its process
      line. */
  lemma FoundAppFields(exec: string -> string, find: Finder)
    requires ForegroundOf(exec, find) != NoApp
    ensures var app := ForegroundOf(exec, find);
            && app.packageName.Some? && app.appName.Some? && app.appName.value != ""
            && (app.appName.value != app.packageName.value ==>
                  FirstGroup(exec(DisplayNameCommand(app.packageName.value)), LabelPattern) == Some(app.appName.value))
            && (var result := exec(DisplayNameCommand(app.packageName.value));
                !IsBlank(result) && FirstGroup(result, LabelPattern).Some?
                && FirstGroup(result, LabelPattern).value != app.packageName.value ==>
                  app.appName.value == FirstGroup(result, LabelPattern).value)
            && (app.pid.Some? ==> app.pid.value == Fields(exec(PidCommand(app.packageName.value)))[1])
  {
    var r := FirstApp(exec, find);
    assert r.Some?;
    var pkg := r.value.packageName;
    var appName := AppDisplayName(pkg, exec);
    assert appName != "";
  }

  /** The system check is a prefix test with the trailing dot: a package
      merely named like a vendor is not a system app. */
  lemma SystemPrefixNeedsDot()
    ensures IsSystemApp("com.android.settings")
    ensures !IsSystemApp("com.androidx.demo")
  {
    assert StartsWith("com.android.settings", SystemPrefixes[0]);
    var s := "com.androidx.demo";
    forall i | 0 <= i < |SystemPrefixes|
      ensures !StartsWith(s, SystemPrefixes[i])
    {
      var p := SystemPrefixes[i];
      if i == 0 {
        assert s[11] != p[11];
      } else {
        assert s[4] != p[4];
      }
    }
  }
}
