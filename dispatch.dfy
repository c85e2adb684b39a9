/**
 * cmd/adb.go: `runAdbCommand` finds the foreground package, runs every
 * applicable log and app strategy in their declared order, and then the
 * action, info, screen and rotation handlers whose flag is set.
 */
module Dispatch {
  import opened Wrappers
  import opened Strings
  import opened ExecPolicy
  import opened Adb
  import opened AppStrategy
  import opened LogStrategy
  import opened InfoStrategy
  import opened RotationStrategy

  // ---------------------------------------------------------------------
  // The foreground package.

  /** The first '/'-separated piece of the lookup result, less one trailing '}'. */
  function ForegroundPackage(res: string): (pkg: string)
    ensures '/' !in pkg
    ensures pkg <= res
    ensures |pkg| < |res| ==> res[|pkg|] == '/' || res[|pkg|] == '}'
  {
    SplitFirst(res, '/');
    var parts := Split(res, '/');
    TrimSuffix(parts[0], "}")
  }

  /** "pkg/activity" and "pkg}/activity" both name the package `pkg`. */
  lemma ForegroundPackageOf(pkg: string, activity: string)
    requires '/' !in pkg && !EndsWith(pkg, "}")
    ensures ForegroundPackage(pkg + "/" + activity) == pkg
    ensures ForegroundPackage(pkg + "}/" + activity) == pkg
  {
    FirstPiece(pkg, activity);
    assert pkg + "}/" + activity == (pkg + "}") + "/" + activity;
    assert '/' !in pkg + "}";
    FirstPiece(pkg + "}", activity);
  }

  /** The first piece of `a + "/" + b` is `a` when `a` has no '/'. */
  lemma FirstPiece(a: string, b: string)
    requires '/' !in a
    ensures Split(a + "/" + b, '/')[0] == a
  {
    var s := a + "/" + b;
    SplitFirst(s, '/');
    var first := Split(s, '/')[0];
    assert s[|a|] == '/';
    assert first == s[..|first|];
    assert a == s[..|a|];
  }

  /** Without a '/', the whole result less one trailing '}' is the package. */
  lemma ForegroundPackageNoSlash(res: string)
    requires '/' !in res
    ensures ForegroundPackage(res) == TrimSuffix(res, "}")
  {
    SplitFirst(res, '/');
    var first := Split(res, '/')[0];
    assert first == res[..|first|];
  }

  /** With a '/', the part before the first '/', less one trailing '}', is the package. */
  lemma ForegroundPackageSlash(res: string)
    requires '/' in res
    ensures var k := IndexOf(res, "/");
      0 <= k < |res| && ForegroundPackage(res) == TrimSuffix(res[..k], "}")
  {
    SlashIndex(res);
    ForegroundPackageAt(res, IndexOf(res, "/"));
  }

  /** The first '/' of a string that has one sits at `IndexOf(res, "/")`. */
  lemma SlashIndex(res: string)
    requires '/' in res
    ensures var k := IndexOf(res, "/");
      0 <= k < |res| && res[k] == '/' && '/' !in res[..k]
  {
    var i :| 0 <= i < |res| && res[i] == '/';
    assert "/" <= res[i..];
    var k := IndexOf(res, "/");
    assert 0 <= k < |res| by {
      assert Contains(res, "/");
    }
    assert res[k] == '/' by {
      assert "/" <= res[k..];
    }
    NoSlashBefore(res, k);
  }

  /** A '/' at `k` with none before it ends the package at `k`. */
  lemma ForegroundPackageAt(res: string, k: int)
    requires 0 <= k < |res| && res[k] == '/' && '/' !in res[..k]
    ensures ForegroundPackage(res) == TrimSuffix(res[..k], "}")
  {
    var a, b := res[..k], res[k + 1..];
    assert res == a + "/" + b by {
      CutAt(res, k);
    }
    FirstPiece(a, b);
  }

  /** A string is what comes before position `k`, the character there and the rest. */
  lemma CutAt(s: string, k: int)
    requires 0 <= k < |s|
    ensures s == s[..k] + [s[k]] + s[k + 1..]
  {
  }

  /** No '/' starts before the first occurrence of "/". */
  lemma NoSlashBefore(s: string, k: int)
    requires 0 <= k <= |s|
    requires forall j :: 0 <= j < k ==> !("/" <= s[j..])
    ensures '/' !in s[..k]
  {
    forall i | 0 <= i < k ensures s[..k][i] != '/' {
      assert !("/" <= s[i..]);
    }
  }

  // ---------------------------------------------------------------------
  // The keyword tables.

  /** The `actionMap` of `executeAction`. */
  const ActionMap: map<string, string> := map[
    "locale" := "android.settings.LOCALE_SETTINGS",
    "developer" := "android.settings.APPLICATION_DEVELOPMENT_SETTINGS",
    "application" := "android.settings.APPLICATION_SETTINGS",
    "notification" := "android.settings.ALL_APPS_NOTIFICATION_SETTINGS",
    "bluetooth" := "android.settings.BLUETOOTH_SETTINGS",
    "input" := "android.settings.INPUT_METHOD_SETTINGS",
    "display" := "android.settings.DISPLAY_SETTINGS"]

  /** The seven action keywords open their settings screens. */
  lemma ActionIntents()
    ensures ActionMap["locale"] == "android.settings.LOCALE_SETTINGS"
    ensures ActionMap["developer"] == "android.settings.APPLICATION_DEVELOPMENT_SETTINGS"
    ensures ActionMap["application"] == "android.settings.APPLICATION_SETTINGS"
    ensures ActionMap["notification"] == "android.settings.ALL_APPS_NOTIFICATION_SETTINGS"
    ensures ActionMap["bluetooth"] == "android.settings.BLUETOOTH_SETTINGS"
    ensures ActionMap["input"] == "android.settings.INPUT_METHOD_SETTINGS"
    ensures ActionMap["display"] == "android.settings.DISPLAY_SETTINGS"
  {
  }

  /** No other keyword is an action. */
  lemma ActionKeywordIsListed(action: string)
    requires action in ActionMap
    ensures || action == "locale" || action == "developer" || action == "application"
            || action == "notification" || action == "bluetooth" || action == "input" || action == "display"
  {
  }

  datatype InfoKind = Device | Cpu | Memory | Battery

  /** The `switch` of `executeInfo`. */
  function SelectInfo(keyword: string): (kind: Option<InfoKind>)
    ensures kind.Some? <==> keyword in ["device", "cpu", "memory", "battery"]
  {
    if keyword == "device" then Some(Device)
    else if keyword == "cpu" then Some(Cpu)
    else if keyword == "memory" then Some(Memory)
    else if keyword == "battery" then Some(Battery)
    else None
  }

  datatype ScreenKind = Png | Mp4

  /** The `switch` of `executeScreen`. */
  function SelectScreen(keyword: string): (kind: Option<ScreenKind>)
    ensures kind.Some? <==> keyword in ["png", "mp4"]
  {
    if keyword == "png" then Some(Png)
    else if keyword == "mp4" then Some(Mp4)
    else None
  }

  /** The `switch` of `executeRotation`. */
  function SelectRotation(keyword: string): (r: Option<Rotation>)
    ensures r.Some? <==> keyword in ["enable", "disable", "0", "1", "2", "3"]
  {
    if keyword == "enable" then Some(Enable)
    else if keyword == "disable" then Some(Disable)
    else if keyword == "0" then Some(Portrait)
    else if keyword == "1" then Some(Landscape)
    else if keyword == "2" then Some(PortraitReverse)
    else if keyword == "3" then Some(LandscapeReverse)
    else None
  }

  /** The rotation keywords "0" to "3" write that digit to `user_rotation`. */
  lemma RotationDigits()
    ensures forall d :: 0 <= d < 4 ==>
      var r := SelectRotation(["0123"[d]]);
      r.Some? && Setting(r.value) == ("user_rotation", d)
    ensures SelectRotation("enable") == Some(Enable) && Setting(Enable) == ("accelerometer_rotation", 1)
    ensures SelectRotation("disable") == Some(Disable) && Setting(Disable) == ("accelerometer_rotation", 0)
  {
    forall d | 0 <= d < 4
      ensures var r := SelectRotation(["0123"[d]]); r.Some? && Setting(r.value) == ("user_rotation", d)
    {
      if d == 0 {
        assert ["0123"[d]] == "0";
      } else if d == 1 {
        assert ["0123"[d]] == "1";
      } else if d == 2 {
        assert ["0123"[d]] == "2";
      } else {
        assert ["0123"[d]] == "3";
      }
    }
  }

  /** strategy/screen_strategy.go reduced to the one command each strategy issues. */
  function ScreenCommand(kind: ScreenKind): Command {
    match kind
    case Png => Screencap
    case Mp4 => ScreenRecord
  }

  // ---------------------------------------------------------------------
  // The strategy groups.

  /** The strategies of `executeLogCommands`, in their declared order. */
  const LogOrder: seq<LogKind> := [CurrentActivity, AllActivity, AllFragment, SpecificPackageActivity]

  /** The log strategies that apply, in order. */
  function ApplicableLogs(kinds: seq<LogKind>, packageName: string, config: LogConfig): seq<LogKind>
    decreases |kinds|
  {
    if kinds == [] then []
    else
      var n := |kinds| - 1;
      ApplicableLogs(kinds[..n], packageName, config) + (if CanHandle(kinds[n], packageName, config) then [kinds[n]] else [])
  }

  /** One more strategy of the list is added to the applicable ones when its flag is set. */
  lemma ApplicableLogsStep(kinds: seq<LogKind>, i: nat, packageName: string, config: LogConfig)
    requires i < |kinds|
    ensures ApplicableLogs(kinds[..i + 1], packageName, config) ==
      ApplicableLogs(kinds[..i], packageName, config) + (if CanHandle(kinds[i], packageName, config) then [kinds[i]] else [])
  {
    assert kinds[..i + 1][..i] == kinds[..i];
  }

  /** A log strategy runs exactly when it is in the group and its flag is set. */
  lemma {:induction false} ApplicableLogsMembers(kinds: seq<LogKind>, packageName: string, config: LogConfig)
    ensures forall k :: k in ApplicableLogs(kinds, packageName, config) <==> k in kinds && CanHandle(k, packageName, config)
    decreases |kinds|
  {
    if kinds != [] {
      var n := |kinds| - 1;
      ApplicableLogsMembers(kinds[..n], packageName, config);
      assert kinds == kinds[..n] + [kinds[n]];
    }
  }

  /** config.AppConfig: the package names given to the eight app flags. */
  datatype AppConfig = AppConfig(
    clear: string, kill: string, grant: string, revoke: string,
    start: string, restart: string, detail: string, exportTo: string)

  /** The strategies of `executeAppCommands`, in their declared order. */
  function AppStrategies(config: AppConfig): (ss: seq<AppStrategy>)
    ensures |ss| == 8
    ensures forall i :: 0 <= i < 8 ==> ss[i].kind == [ClearData, Kill, Grant, Revoke, Start, Restart, Detail, Export][i]
    ensures && ss[0].packageName == config.clear && ss[1].packageName == config.kill
            && ss[2].packageName == config.grant && ss[3].packageName == config.revoke
            && ss[4].packageName == config.start && ss[5].packageName == config.restart
            && ss[6].packageName == config.detail && ss[7].packageName == config.exportTo
  {
    [AppStrategy(ClearData, config.clear), AppStrategy(Kill, config.kill),
     AppStrategy(Grant, config.grant), AppStrategy(Revoke, config.revoke),
     AppStrategy(Start, config.start), AppStrategy(Restart, config.restart),
     AppStrategy(Detail, config.detail), AppStrategy(Export, config.exportTo)]
  }

  /** The app strategies that apply, in order. */
  function ApplicableApps(ss: seq<AppStrategy>): seq<AppStrategy>
    decreases |ss|
  {
    if ss == [] then []
    else
      var n := |ss| - 1;
      ApplicableApps(ss[..n]) + (if ss[n].CanHandle() then [ss[n]] else [])
  }

  /** An app strategy runs exactly when it is in the group and has a package name. */
  lemma {:induction false} ApplicableAppsMembers(ss: seq<AppStrategy>)
    ensures forall s :: s in ApplicableApps(ss) <==> s in ss && s.CanHandle()
    decreases |ss|
  {
    if ss != [] {
      var n := |ss| - 1;
      ApplicableAppsMembers(ss[..n]);
      assert ss == ss[..n] + [ss[n]];
    }
  }

  /** Selecting from two parts selects from each, in order. */
  lemma {:induction false} ApplicableAppsAppend(a: seq<AppStrategy>, b: seq<AppStrategy>)
    ensures ApplicableApps(a + b) == ApplicableApps(a) + ApplicableApps(b)
    decreases |b|
  {
    if b == [] {
      assert a + b == a;
    } else {
      var n := |b| - 1;
      assert (a + b)[..|a| + n] == a + b[..n];
      assert (a + b)[|a| + n] == b[n];
      ApplicableAppsAppend(a, b[..n]);
    }
  }

  /** One more strategy of the list is added to the applicable ones when it can handle. */
  lemma ApplicableAppsStep(ss: seq<AppStrategy>, i: nat)
    requires i < |ss|
    ensures ApplicableApps(ss[..i + 1]) == ApplicableApps(ss[..i]) + (if ss[i].CanHandle() then [ss[i]] else [])
  {
    assert ss[..i + 1][..i] == ss[..i];
  }

  /** When exactly one strategy can handle, exactly that one runs. */
  lemma {:induction false} OnlyOneApplies(ss: seq<AppStrategy>, i: nat)
    requires i < |ss|
    requires forall j :: 0 <= j < |ss| ==> (ss[j].CanHandle() <==> j == i)
    ensures ApplicableApps(ss) == [ss[i]]
    decreases |ss|
  {
    var n := |ss| - 1;
    var prefix := ss[..n];
    assert forall j :: 0 <= j < n ==> prefix[j] == ss[j];
    if n == i {
      NoneApplies(prefix);
    } else {
      OnlyOneApplies(prefix, i);
    }
  }

  /** When no strategy can handle, none runs. */
  lemma {:induction false} NoneApplies(ss: seq<AppStrategy>)
    requires forall j :: 0 <= j < |ss| ==> !ss[j].CanHandle()
    ensures ApplicableApps(ss) == []
    decreases |ss|
  {
    if ss != [] {
      NoneApplies(ss[..|ss| - 1]);
    }
  }

  /** With exactly one app flag given, exactly that strategy runs, with that package name. */
  lemma ExactlyOneAppFlag(config: AppConfig, i: nat)
    requires i < 8
    requires forall j :: 0 <= j < 8 ==> (AppStrategies(config)[j].packageName != "" <==> j == i)
    ensures ApplicableApps(AppStrategies(config)) == [AppStrategies(config)[i]]
  {
    OnlyOneApplies(AppStrategies(config), i);
  }

  /** What a run of log strategies does: its commands, whether it exits, its reports, the strategies it ran. */
  datatype GroupRun = GroupRun(cmds: seq<Command>, exits: bool, reports: seq<Report>, ran: seq<LogKind>)

  /**
   * The loop of `executeLogCommands` over the first `n` strategies of
   * `kinds`, its replies taken from position `start` of `oracle` on: every
   * applicable strategy runs in turn, its error is reported and the next
   * one runs; only an exit ends the loop early.
   */
  function LogGroup(oracle: nat -> Reply, start: nat, kinds: seq<LogKind>, n: nat,
                    packageName: string, config: LogConfig): GroupRun
    requires n <= |kinds|
    decreases n
  {
    if n == 0 then GroupRun([], false, [], [])
    else
      StepGroup(oracle, start, LogGroup(oracle, start, kinds, n - 1, packageName, config), kinds[n - 1], packageName, config)
  }

  /** The run `g` followed by strategy `kind`, which runs only when it applies. */
  function StepGroup(oracle: nat -> Reply, start: nat, g: GroupRun, kind: LogKind,
                     packageName: string, config: LogConfig): GroupRun
  {
    if !CanHandle(kind, packageName, config) then g
    else Extend(g, LogEffect(oracle, start + |g.cmds|, kind, packageName, config), kind)
  }

  /** The run `g` followed by strategy `kind` with effect `e`, whose error is reported; nothing runs after an exit. */
  function Extend(g: GroupRun, e: LogRun, kind: LogKind): GroupRun {
    if g.exits then g
    else
      GroupRun(g.cmds + e.cmds, e.exits,
               g.reports + (if e.err.Some? then [StrategyFailed(e.err.value)] else []),
               g.ran + [kind])
  }

  /**
   * A failing strategy does not stop the group: unless a strategy exits,
   * every applicable strategy runs; an exit cuts the list of applicable
   * strategies short. Each run reports at most one failure.
   */
  lemma {:induction false} LogGroupRunsApplicable(oracle: nat -> Reply, start: nat, kinds: seq<LogKind>, n: nat,
                                                  packageName: string, config: LogConfig)
    requires n <= |kinds|
    ensures var g := LogGroup(oracle, start, kinds, n, packageName, config);
      && g.ran <= ApplicableLogs(kinds[..n], packageName, config)
      && (!g.exits ==> g.ran == ApplicableLogs(kinds[..n], packageName, config))
      && |g.reports| <= |g.ran| <= |g.cmds|
      && (forall j :: 0 <= j < |g.reports| ==> g.reports[j].StrategyFailed?)
    decreases n
  {
    if n > 0 {
      LogGroupRunsApplicable(oracle, start, kinds, n - 1, packageName, config);
      assert kinds[..n][..n - 1] == kinds[..n - 1];
      var g := LogGroup(oracle, start, kinds, n - 1, packageName, config);
      if CanHandle(kinds[n - 1], packageName, config) && !g.exits {
        var e := LogEffect(oracle, start + |g.cmds|, kinds[n - 1], packageName, config);
        assert LogGroup(oracle, start, kinds, n, packageName, config).ran == g.ran + [kinds[n - 1]];
      }
    }
  }

  /**
   * One iteration of `executeLogCommands`: run the strategy and report its
   * error.
   */
  method RunLogAndReport(h: Host, kind: LogKind, packageName: string, config: LogConfig)
    modifies h`issued, h`exited, h`reports
    ensures old(h.exited) ==> unchanged(h)
    ensures !old(h.exited) ==>
      var e := LogEffect(h.oracle, |old(h.issued)|, kind, packageName, config);
      && h.issued == old(h.issued) + e.cmds && h.exited == e.exits
      && h.reports == old(h.reports) + (if e.err.Some? then [StrategyFailed(e.err.value)] else [])
  {
    var _, err := RunLog(h, kind, packageName, config);
    if err.Some? {
      h.Report(StrategyFailed(err.value));
    }
  }

  /** Since `issued0` and `reports0`, the host did what the run `g` does. */
  ghost predicate RanAs(h: Host, issued0: seq<Command>, reports0: seq<Report>, g: GroupRun)
    reads h
  {
    h.issued == issued0 + g.cmds && h.exited == g.exits && h.reports == reports0 + g.reports
  }

  /** One turn of the loop in `ExecuteLogCommands`: strategy `kind` runs when it applies. */
  method LogTurn(h: Host, ghost issued0: seq<Command>, ghost reports0: seq<Report>, ghost g: GroupRun,
                 kind: LogKind, packageName: string, config: LogConfig)
    modifies h`issued, h`exited, h`reports
    ensures old(h.exited) || !CanHandle(kind, packageName, config) ==> unchanged(h)
    ensures old(RanAs(h, issued0, reports0, g)) ==>
      RanAs(h, issued0, reports0, StepGroup(h.oracle, |issued0|, g, kind, packageName, config))
  {
    if CanHandle(kind, packageName, config) {
      ghost var i1 := h.issued;
      ghost var r1 := h.reports;
      RunLogAndReport(h, kind, packageName, config);
      if !old(h.exited) && old(RanAs(h, issued0, reports0, g)) {
        ExtendStep(h.oracle, issued0, reports0, g, i1, r1, h.issued, h.reports, h.exited, kind, packageName, config);
      }
    }
  }

  /** The state after one more log strategy is `Extend` of the group so far. */
  lemma ExtendStep(oracle: nat -> Reply, issued0: seq<Command>, reports0: seq<Report>, g: GroupRun,
                   i1: seq<Command>, r1: seq<Report>, i2: seq<Command>, r2: seq<Report>, x2: bool,
                   kind: LogKind, packageName: string, config: LogConfig)
    requires i1 == issued0 + g.cmds && r1 == reports0 + g.reports && !g.exits
    requires CanHandle(kind, packageName, config)
    requires var e := LogEffect(oracle, |i1|, kind, packageName, config);
      i2 == i1 + e.cmds && x2 == e.exits && r2 == r1 + (if e.err.Some? then [StrategyFailed(e.err.value)] else [])
    ensures var g' := StepGroup(oracle, |issued0|, g, kind, packageName, config);
      i2 == issued0 + g'.cmds && x2 == g'.exits && r2 == reports0 + g'.reports
  {
    var e := LogEffect(oracle, |i1|, kind, packageName, config);
    LogEffectAt(oracle, |i1|, |issued0| + |g.cmds|, kind, packageName, config);
    AppendAssoc(issued0, g.cmds, e.cmds);
    AppendAssoc(reports0, g.reports, if e.err.Some? then [StrategyFailed(e.err.value)] else []);
  }

  /** `LogEffect` depends on the position only through its value. */
  lemma LogEffectAt(oracle: nat -> Reply, n1: nat, n2: nat, kind: LogKind, packageName: string, config: LogConfig)
    requires n1 == n2
    ensures LogEffect(oracle, n1, kind, packageName, config) == LogEffect(oracle, n2, kind, packageName, config)
  {
  }

  /**
   * `executeLogCommands`: each applicable strategy runs in turn; its error
   * is reported and the loop goes on. `ran` lists the strategies the loop
   * hands to `Run`.
   */
  method ExecuteLogCommands(h: Host, packageName: string, config: LogConfig) returns (ghost ran: seq<LogKind>)
    modifies h`issued, h`exited, h`reports
    ensures ran == ApplicableLogs(LogOrder, packageName, config)
    ensures old(h.exited) ==> unchanged(h)
    ensures ran == [] ==> unchanged(h)
    ensures old(h.issued) <= h.issued
    ensures !old(h.exited) ==>
      var g := LogGroup(h.oracle, |old(h.issued)|, LogOrder, |LogOrder|, packageName, config);
      h.issued == old(h.issued) + g.cmds && h.exited == g.exits && h.reports == old(h.reports) + g.reports
  {
    ran := [];
    ghost var g := GroupRun([], false, [], []);
    for i := 0 to |LogOrder|
      invariant ran == ApplicableLogs(LogOrder[..i], packageName, config)
      invariant g == LogGroup(h.oracle, |old(h.issued)|, LogOrder, i, packageName, config)
      invariant old(h.exited) ==> unchanged(h)
      invariant ran == [] ==> unchanged(h)
      invariant !old(h.exited) ==> RanAs(h, old(h.issued), old(h.reports), g)
    {
      ApplicableLogsStep(LogOrder, i, packageName, config);
      var s := LogOrder[i];
      LogTurn(h, old(h.issued), old(h.reports), g, s, packageName, config);
      g := StepGroup(h.oracle, |old(h.issued)|, g, s, packageName, config);
      if CanHandle(s, packageName, config) {
        ran := ran + [s];
      }
    }
    assert LogOrder[..|LogOrder|] == LogOrder;
  }

  /**
   * What a run of app strategies does: its commands, whether it exits, the
   * files afterwards, its reports and the strategies it ran.
   */
  datatype AppGroupRun = AppGroupRun(cmds: seq<Command>, exits: bool, files: set<string>,
                                     reports: seq<Report>, ran: seq<AppStrategy>)

  /**
   * What one app strategy does: the run of a strategy of the given kind and
   * package name whose first command takes reply `k`, with the given files
   * on disk.
   */
  type Effect = (nat, AppKind, string, set<string>) -> AppRun

  /** The effect of the strategies on a host whose replies are `oracle`. */
  function Effects(oracle: nat -> Reply): Effect {
    (k: nat, kind: AppKind, pkg: string, files: set<string>) => AppEffect(oracle, k, kind, pkg, files)
  }

  /** Every run of `eff` issues at least one command. */
  ghost predicate IssuesCommands(eff: Effect) {
    forall k, kind, pkg, files :: 1 <= |eff(k, kind, pkg, files).cmds|
  }

  /** Every app strategy issues its first command. */
  lemma EffectsIssueCommands(oracle: nat -> Reply)
    ensures IssuesCommands(Effects(oracle))
  {
  }

  /**
   * The loop of `executeAppCommands` over the first `n` strategies of `ss`
   * with effect `eff`, its replies taken from position `start` on and
   * `files` on disk: every applicable strategy runs in turn with its own package name,
   * its error is reported and the next one runs; only an exit ends the
   * loop early.
   */
  function AppGroup(eff: Effect, start: nat, ss: seq<AppStrategy>, n: nat, files: set<string>): AppGroupRun
    requires n <= |ss|
    decreases n
  {
    if n == 0 then AppGroupRun([], false, files, [], [])
    else StepApps(eff, start, AppGroup(eff, start, ss, n - 1, files), ss[n - 1])
  }

  /** The run `g` followed by strategy `s`, which runs only when it applies. */
  function StepApps(eff: Effect, start: nat, g: AppGroupRun, s: AppStrategy): AppGroupRun {
    if !s.CanHandle() then g
    else ExtendApps(g, eff(start + |g.cmds|, s.kind, s.GetPackageName(), g.files), s)
  }

  /** The run `g` followed by strategy `s` with effect `e`, whose error is reported; nothing runs after an exit. */
  function ExtendApps(g: AppGroupRun, e: AppRun, s: AppStrategy): AppGroupRun {
    if g.exits then g
    else
      AppGroupRun(g.cmds + e.cmds, e.exits, e.files,
                  g.reports + (if e.err.Some? then [StrategyFailed(e.err.value)] else []),
                  g.ran + [s])
  }

  /**
   * A failing app strategy does not stop the group: unless a strategy
   * exits, every applicable strategy runs; an exit cuts the list short.
   * Each run reports at most one failure.
   */
  lemma {:induction false} AppGroupRunsApplicable(eff: Effect, start: nat, ss: seq<AppStrategy>, n: nat,
                                                  files: set<string>)
    requires n <= |ss| && IssuesCommands(eff)
    ensures var g := AppGroup(eff, start, ss, n, files);
      && g.ran <= ApplicableApps(ss[..n])
      && (!g.exits ==> g.ran == ApplicableApps(ss[..n]))
      && |g.reports| <= |g.ran| <= |g.cmds|
      && (forall j :: 0 <= j < |g.reports| ==> g.reports[j].StrategyFailed?)
    decreases n
  {
    if n > 0 {
      AppGroupRunsApplicable(eff, start, ss, n - 1, files);
      assert ss[..n][..n - 1] == ss[..n - 1];
      var g := AppGroup(eff, start, ss, n - 1, files);
      if ss[n - 1].CanHandle() && !g.exits {
        assert AppGroup(eff, start, ss, n, files).ran == g.ran + [ss[n - 1]];
      }
    }
  }

  /** A group in which only `s` ran, with effect `e`. */
  function SoleRun(e: AppRun, s: AppStrategy): AppGroupRun {
    AppGroupRun(e.cmds, e.exits, e.files, if e.err.Some? then [StrategyFailed(e.err.value)] else [], [s])
  }

  /**
   * When exactly the strategy at `i` applies, the group is that
   * strategy's run on the first replies, with its error reported.
   */
  lemma AppGroupOnlyOne(eff: Effect, start: nat, ss: seq<AppStrategy>, n: nat, i: nat,
                                           files: set<string>)
    requires i < n <= |ss|
    requires forall j :: 0 <= j < |ss| ==> (ss[j].CanHandle() <==> j == i)
    ensures AppGroup(eff, start, ss, n, files) ==
      SoleRun(eff(start, ss[i].kind, ss[i].GetPackageName(), files), ss[i])
  {
    AppGroupSkipAfter(eff, start, ss, n, i, files);
    AppGroupFirst(eff, start, ss, i, files);
  }

  /** Strategies after `i` that do not apply leave the group as it was after `i`. */
  lemma {:induction false} AppGroupSkipAfter(eff: Effect, start: nat, ss: seq<AppStrategy>, n: nat, i: nat,
                                             files: set<string>)
    requires i < n <= |ss|
    requires forall j :: i < j < n ==> !ss[j].CanHandle()
    ensures AppGroup(eff, start, ss, n, files) == AppGroup(eff, start, ss, i + 1, files)
    decreases n
  {
    if n - 1 > i {
      AppGroupSkipAfter(eff, start, ss, n - 1, i, files);
      assert !ss[n - 1].CanHandle();
    }
  }

  /** The first strategy that applies runs on the first replies. */
  lemma AppGroupFirst(eff: Effect, start: nat, ss: seq<AppStrategy>, i: nat, files: set<string>)
    requires i < |ss| && ss[i].CanHandle()
    requires forall j :: 0 <= j < i ==> !ss[j].CanHandle()
    ensures AppGroup(eff, start, ss, i + 1, files) ==
      SoleRun(eff(start, ss[i].kind, ss[i].GetPackageName(), files), ss[i])
  {
    AppGroupNone(eff, start, ss, i, files);
    var empty := AppGroupRun([], false, files, [], []);
    assert start + |empty.cmds| == start;
    ExtendEmpty(files, eff(start, ss[i].kind, ss[i].GetPackageName(), files), ss[i]);
  }

  /** The first strategy to run makes the group its sole run. */
  lemma ExtendEmpty(files: set<string>, e: AppRun, s: AppStrategy)
    ensures ExtendApps(AppGroupRun([], false, files, [], []), e, s) == SoleRun(e, s)
  {
    assert [] + e.cmds == e.cmds;
  }

  /** When none of the first `n` strategies applies, the group does nothing. */
  lemma {:induction false} AppGroupNone(eff: Effect, start: nat, ss: seq<AppStrategy>, n: nat,
                                        files: set<string>)
    requires n <= |ss|
    requires forall j :: 0 <= j < n ==> !ss[j].CanHandle()
    ensures AppGroup(eff, start, ss, n, files) == AppGroupRun([], false, files, [], [])
    decreases n
  {
    if n > 0 {
      AppGroupNone(eff, start, ss, n - 1, files);
    }
  }

  /** Since `issued0` and `reports0`, the host did what the run `g` does. */
  ghost predicate AppsRanAs(h: Host, issued0: seq<Command>, reports0: seq<Report>, g: AppGroupRun)
    reads h
  {
    h.issued == issued0 + g.cmds && h.exited == g.exits && h.files == g.files && h.reports == reports0 + g.reports
  }

  /** One turn of the loop in `RunAppGroup`: strategy `s` runs when it applies. */
  method AppTurn(h: Host, ghost issued0: seq<Command>, ghost reports0: seq<Report>, ghost g: AppGroupRun, s: AppStrategy)
    modifies h`issued, h`exited, h`reports, h`files
    ensures old(h.exited) || !s.CanHandle() ==> unchanged(h)
    ensures old(AppsRanAs(h, issued0, reports0, g)) ==>
      AppsRanAs(h, issued0, reports0, StepApps(Effects(h.oracle), |issued0|, g, s))
  {
    if s.CanHandle() {
      ghost var i1, r1, f1 := h.issued, h.reports, h.files;
      RunAndReport(h, s);
      if !old(h.exited) && old(AppsRanAs(h, issued0, reports0, g)) {
        ExtendAppsStep(h.oracle, issued0, reports0, g, i1, r1, f1, h.issued, h.reports, h.exited, h.files, s);
      }
    }
  }

  /** The state after one more app strategy is `ExtendApps` of the group so far. */
  lemma ExtendAppsStep(oracle: nat -> Reply, issued0: seq<Command>, reports0: seq<Report>, g: AppGroupRun,
                       i1: seq<Command>, r1: seq<Report>, f1: set<string>,
                       i2: seq<Command>, r2: seq<Report>, x2: bool, f2: set<string>, s: AppStrategy)
    requires i1 == issued0 + g.cmds && r1 == reports0 + g.reports && f1 == g.files && !g.exits
    requires s.CanHandle()
    requires var e := AppEffect(oracle, |i1|, s.kind, s.GetPackageName(), f1);
      && i2 == i1 + e.cmds && x2 == e.exits && f2 == e.files
      && r2 == r1 + (if e.err.Some? then [StrategyFailed(e.err.value)] else [])
    ensures var g' := StepApps(Effects(oracle), |issued0|, g, s);
      i2 == issued0 + g'.cmds && x2 == g'.exits && f2 == g'.files && r2 == reports0 + g'.reports
  {
    var e := AppEffect(oracle, |i1|, s.kind, s.GetPackageName(), f1);
    AppEffectAt(oracle, |i1|, |issued0| + |g.cmds|, s.kind, s.GetPackageName(), f1);
    AppendAssoc(issued0, g.cmds, e.cmds);
    AppendAssoc(reports0, g.reports, if e.err.Some? then [StrategyFailed(e.err.value)] else []);
  }

  /** `AppEffect` depends on the position only through its value. */
  lemma AppEffectAt(oracle: nat -> Reply, n1: nat, n2: nat, kind: AppKind, pkg: string, files: set<string>)
    requires n1 == n2
    ensures AppEffect(oracle, n1, kind, pkg, files) == AppEffect(oracle, n2, kind, pkg, files)
  {
  }

  /** `AppGroup` depends on the position only through its value. */
  lemma AppGroupAt(eff: Effect, n1: nat, n2: nat, ss: seq<AppStrategy>, n: nat, files: set<string>)
    requires n1 == n2 && n <= |ss|
    ensures AppGroup(eff, n1, ss, n, files) == AppGroup(eff, n2, ss, n, files)
  {
  }

  /**
   * The loop of `executeAppCommands` over any list of strategies: each
   * applicable strategy runs in turn with its own package name; its error
   * is reported and the loop goes on. `ran` lists the strategies the loop
   * hands to `Run`.
   */
  method RunAppGroup(h: Host, strategies: seq<AppStrategy>) returns (ghost ran: seq<AppStrategy>)
    modifies h`issued, h`exited, h`reports, h`files
    ensures ran == ApplicableApps(strategies)
    ensures old(h.exited) ==> unchanged(h)
    ensures ran == [] ==> unchanged(h)
    ensures old(h.issued) <= h.issued
    ensures !old(h.exited) ==>
      var g := AppGroup(Effects(h.oracle), |old(h.issued)|, strategies, |strategies|, old(h.files));
      && h.issued == old(h.issued) + g.cmds && h.exited == g.exits && h.files == g.files
      && h.reports == old(h.reports) + g.reports
  {
    ran := [];
    ghost var g := AppGroupRun([], false, h.files, [], []);
    for i := 0 to |strategies|
      invariant ran == ApplicableApps(strategies[..i])
      invariant g == AppGroup(Effects(h.oracle), |old(h.issued)|, strategies, i, old(h.files))
      invariant old(h.exited) ==> unchanged(h)
      invariant ran == [] ==> g == AppGroupRun([], false, old(h.files), [], [])
      invariant !old(h.exited) ==> AppsRanAs(h, old(h.issued), old(h.reports), g)
    {
      ApplicableAppsStep(strategies, i);
      var s := strategies[i];
      AppTurn(h, old(h.issued), old(h.reports), g, s);
      g := StepApps(Effects(h.oracle), |old(h.issued)|, g, s);
      if s.CanHandle() {
        ran := ran + [s];
      }
    }
    assert strategies[..|strategies|] == strategies;
  }

  /** `executeAppCommands`: the loop over the eight strategies of `config`. */
  method ExecuteAppCommands(h: Host, config: AppConfig) returns (ghost ran: seq<AppStrategy>)
    modifies h`issued, h`exited, h`reports, h`files
    ensures ran == ApplicableApps(AppStrategies(config))
    ensures old(h.exited) ==> unchanged(h)
    ensures ran == [] ==> unchanged(h)
    ensures old(h.issued) <= h.issued
    ensures !old(h.exited) ==>
      var g := AppGroup(Effects(h.oracle), |old(h.issued)|, AppStrategies(config), 8, old(h.files));
      && h.issued == old(h.issued) + g.cmds && h.exited == g.exits && h.files == g.files
      && h.reports == old(h.reports) + g.reports
  {
    ran := RunAppGroup(h, AppStrategies(config));
  }

  /**
   * One iteration of `executeAppCommands`: run the strategy with its own
   * package name and report its error.
   */
  method RunAndReport(h: Host, s: AppStrategy)
    modifies h`issued, h`exited, h`reports, h`files
    ensures old(h.exited) ==> unchanged(h)
    ensures !old(h.exited) ==>
      var e := AppEffect(h.oracle, |old(h.issued)|, s.kind, s.GetPackageName(), old(h.files));
      && h.issued == old(h.issued) + e.cmds && h.exited == e.exits && h.files == e.files
      && h.reports == old(h.reports) + (if e.err.Some? then [StrategyFailed(e.err.value)] else [])
  {
    var err := RunApp(h, s, s.GetPackageName());
    if err.Some? {
      h.Report(StrategyFailed(err.value));
    }
  }

  // ---------------------------------------------------------------------
  // The keyword handlers.

  /** `executeAction`: an unknown keyword does nothing; a failed intent is reported and exits. */
  method ExecuteAction(h: Host, action: string)
    modifies h`issued, h`exited, h`reports
    ensures old(h.issued) <= h.issued && old(h.reports) <= h.reports
    ensures h.issued[|old(h.issued)|..] <= ActionCommands(action)
    ensures !old(h.exited) && !h.exited ==> h.issued == old(h.issued) + ActionCommands(action)
    ensures old(h.exited) || action !in ActionMap ==> unchanged(h)
    ensures !old(h.exited) && action in ActionMap ==>
      var cmd := StartSettings(ActionMap[action]);
      && h.issued == old(h.issued) + [cmd]
      && h.exited == !old(h.NextStrict()).Return?
      && h.reports == old(h.reports) + (if old(h.NextStrict()).Err? then [ActionFailed(CommandFailed(cmd))] else [])
  {
    if action in ActionMap {
      var actionValue := ActionMap[action];
      var _, err := h.Exec(StartSettings(actionValue), false, None);
      if err.Some? {
        h.Report(ActionFailed(err.value));
        h.Exit();
      }
    }
  }

  /** The CPU, memory or battery strategy run by `executeInfo`, its error reported. */
  method ReportDump(h: Host, cmd: Command)
    modifies h`issued, h`exited, h`reports
    ensures old(h.exited) ==> unchanged(h)
    ensures !old(h.exited) ==>
      && h.issued == old(h.issued) + [cmd]
      && h.exited == old(h.NextStrict()).Fatal?
      && h.reports == old(h.reports) + (if old(h.NextStrict()).Err? then [StrategyFailed(CommandFailed(cmd))] else [])
  {
    var _, err := RunDump(h, cmd);
    if err.Some? {
      h.Report(StrategyFailed(err.value));
    }
  }

  /** The device strategy run by `executeInfo`; its error is always nil, so nothing is reported. */
  method ReportDeviceInfo(h: Host)
    modifies h`issued, h`exited, h`reports
    ensures old(h.exited) ==> unchanged(h)
    ensures old(h.issued) <= h.issued <= old(h.issued) + InfoCommands && h.reports == old(h.reports)
  {
    var _, err := RunDeviceInfo(h);
  }

  /** The query `executeInfo` issues for the CPU, memory and battery keywords. */
  function DumpCommand(kind: InfoKind): Command {
    match kind
    case Cpu => CpuInfoDump
    case Memory => MemInfoDump
    case _ => BatteryDump
  }

  /** `executeInfo`: an unknown keyword is reported; a strategy's error is reported. */
  method ExecuteInfo(h: Host, info: string)
    modifies h`issued, h`exited, h`reports
    ensures old(h.issued) <= h.issued && old(h.reports) <= h.reports
    ensures h.issued[|old(h.issued)|..] <= InfoKeywordCommands(info)
    ensures !old(h.exited) && !h.exited && SelectInfo(info) != Some(Device) ==>
      h.issued == old(h.issued) + InfoKeywordCommands(info)
    ensures old(h.exited) ==> unchanged(h)
    ensures !old(h.exited) && SelectInfo(info).None? ==>
      h.issued == old(h.issued) && !h.exited && h.reports == old(h.reports) + [UnknownInfo(info)]
    ensures !old(h.exited) && SelectInfo(info) == Some(Device) ==>
      old(h.issued) <= h.issued <= old(h.issued) + InfoCommands && h.reports == old(h.reports)
    ensures !old(h.exited) && SelectInfo(info).Some? && SelectInfo(info) != Some(Device) ==>
      var cmd := DumpCommand(SelectInfo(info).value);
      && h.issued == old(h.issued) + [cmd]
      && h.exited == old(h.NextStrict()).Fatal?
      && h.reports == old(h.reports) + (if old(h.NextStrict()).Err? then [StrategyFailed(CommandFailed(cmd))] else [])
  {
    var kind := SelectInfo(info);
    match kind
    case None =>
      h.Report(UnknownInfo(info));
    case Some(Device) =>
      ReportDeviceInfo(h);
    case Some(k) =>
      ReportDump(h, DumpCommand(k));
  }

  /** `executeScreen`: an unknown keyword is reported; a strategy's error is reported. */
  method ExecuteScreen(h: Host, screen: string)
    modifies h`issued, h`exited, h`reports
    ensures old(h.issued) <= h.issued && old(h.reports) <= h.reports
    ensures h.issued[|old(h.issued)|..] <= ScreenKeywordCommands(screen)
    ensures !old(h.exited) && !h.exited ==> h.issued == old(h.issued) + ScreenKeywordCommands(screen)
    ensures old(h.exited) ==> unchanged(h)
    ensures !old(h.exited) && SelectScreen(screen).None? ==>
      h.issued == old(h.issued) && !h.exited && h.reports == old(h.reports) + [UnknownScreen(screen)]
    ensures !old(h.exited) && SelectScreen(screen).Some? ==>
      var cmd := ScreenCommand(SelectScreen(screen).value);
      && h.issued == old(h.issued) + [cmd]
      && h.exited == old(h.NextStrict()).Fatal?
      && h.reports == old(h.reports) + (if old(h.NextStrict()).Err? then [StrategyFailed(CommandFailed(cmd))] else [])
  {
    match SelectScreen(screen)
    case None =>
      h.Report(UnknownScreen(screen));
    case Some(kind) =>
      var err := RunCommand(h, ScreenCommand(kind));
      if err.Some? {
        h.Report(StrategyFailed(err.value));
      }
  }

  /** `executeRotation`: an unknown keyword is reported; a strategy's error is reported. */
  method ExecuteRotation(h: Host, rotation: string)
    modifies h`issued, h`exited, h`reports
    ensures old(h.issued) <= h.issued && old(h.reports) <= h.reports
    ensures h.issued[|old(h.issued)|..] <= RotationKeywordCommands(rotation)
    ensures !old(h.exited) && !h.exited ==> h.issued == old(h.issued) + RotationKeywordCommands(rotation)
    ensures old(h.exited) ==> unchanged(h)
    ensures !old(h.exited) && SelectRotation(rotation).None? ==>
      h.issued == old(h.issued) && !h.exited && h.reports == old(h.reports) + [UnknownRotation(rotation)]
    ensures !old(h.exited) && SelectRotation(rotation).Some? ==>
      var setting := Setting(SelectRotation(rotation).value);
      var cmd := SettingsPut(setting.0, setting.1);
      && h.issued == old(h.issued) + [cmd]
      && h.exited == old(h.NextStrict()).Fatal?
      && h.reports == old(h.reports) + (if old(h.NextStrict()).Err? then [StrategyFailed(CommandFailed(cmd))] else [])
  {
    match SelectRotation(rotation)
    case None =>
      h.Report(UnknownRotation(rotation));
    case Some(r) =>
      var err := RunRotation(h, r);
      if err.Some? {
        h.Report(StrategyFailed(err.value));
      }
  }

  // ---------------------------------------------------------------------
  // runAdbCommand.

  /** The flags of one invocation. */
  datatype Flags = Flags(
    log: LogConfig, app: AppConfig, action: string, info: string, screen: string, rotation: string)

  /** No handler is asked for. */
  predicate NothingAsked(f: Flags) {
    && !f.log.logCurrentActivity && !f.log.logAllActivity && !f.log.logAllFragment
    && f.log.logSpecificPackageActivity == ""
    && (forall s :: s in AppStrategies(f.app) ==> s.packageName == "")
    && f.action == "" && f.info == "" && f.screen == "" && f.rotation == ""
  }

  /**
   * The log and app groups of `runAdbCommand`: the log group runs first and
   * the app group takes the next replies; its failures are reported after
   * the log group's, and an exit in the log group leaves the app group out.
   */
  method RunGroups(h: Host, packageName: string, log: LogConfig, app: AppConfig)
    modifies h`issued, h`exited, h`reports, h`files
    ensures old(h.exited) ==> unchanged(h)
    ensures ApplicableLogs(LogOrder, packageName, log) == [] && ApplicableApps(AppStrategies(app)) == [] ==> unchanged(h)
    ensures old(h.issued) <= h.issued
    ensures GroupsRan(h.oracle, old(h.State()), h.State(), packageName, log, AppStrategies(app))
  {
    LogThenApps(h, packageName, log, AppStrategies(app));
  }

  /** `RunGroups` over any list of app strategies. */
  method LogThenApps(h: Host, packageName: string, log: LogConfig, ss: seq<AppStrategy>)
    modifies h`issued, h`exited, h`reports, h`files
    ensures old(h.exited) ==> unchanged(h)
    ensures ApplicableLogs(LogOrder, packageName, log) == [] && ApplicableApps(ss) == [] ==> unchanged(h)
    ensures old(h.issued) <= h.issued
    ensures GroupsRan(h.oracle, old(h.State()), h.State(), packageName, log, ss)
  {
    ghost var s0 := h.State();
    ghost var _ := ExecuteLogCommands(h, packageName, log);
    ghost var mid := h.State();
    ghost var _ := RunAppGroup(h, ss);
    if !s0.exited {
      GroupsCompose(h.oracle, s0, mid, h.State(), packageName, log, ss);
    }
  }

  /**
   * From `s0` to `s` the log group ran for `packageName` and then, unless
   * it exited, the app group over `ss`, on the replies after the log
   * group's commands and with its reports after the log group's; nothing
   * ran if `s0` had exited.
   */
  ghost predicate GroupsRan(oracle: nat -> Reply, s0: HostState, s: HostState,
                            packageName: string, log: LogConfig, ss: seq<AppStrategy>)
  {
    if s0.exited then s == s0
    else
      var g := LogGroup(oracle, |s0.issued|, LogOrder, |LogOrder|, packageName, log);
      var a := AppGroup(Effects(oracle), |s0.issued| + |g.cmds|, ss, |ss|, s0.files);
      if g.exits then s == HostState(s0.issued + g.cmds, s0.reports + g.reports, true, s0.files)
      else s == HostState(s0.issued + g.cmds + a.cmds, s0.reports + g.reports + a.reports, a.exits, a.files)
  }

  /** The log group's run from `s0` to `mid` followed by the app group's run from `mid` to `s` is what `GroupsRan` says. */
  lemma GroupsCompose(oracle: nat -> Reply, s0: HostState, mid: HostState, s: HostState,
                      packageName: string, log: LogConfig, ss: seq<AppStrategy>)
    requires !s0.exited
    requires var g := LogGroup(oracle, |s0.issued|, LogOrder, |LogOrder|, packageName, log);
      && mid.issued == s0.issued + g.cmds && mid.exited == g.exits && mid.reports == s0.reports + g.reports
      && mid.files == s0.files
    requires mid.exited ==> s == mid
    requires !mid.exited ==>
      var a := AppGroup(Effects(oracle), |mid.issued|, ss, |ss|, mid.files);
      s == HostState(mid.issued + a.cmds, mid.reports + a.reports, a.exits, a.files)
    ensures GroupsRan(oracle, s0, s, packageName, log, ss)
  {
    var g := LogGroup(oracle, |s0.issued|, LogOrder, |LogOrder|, packageName, log);
    AppGroupAt(Effects(oracle), |mid.issued|, |s0.issued| + |g.cmds|, ss, |ss|, s0.files);
  }

  /** The commands `executeAction` issues for `action`: none for an unknown keyword. */
  function ActionCommands(action: string): (cmds: seq<Command>)
    ensures |cmds| <= 1
    ensures cmds != [] <==> action in ["locale", "developer", "application", "notification", "bluetooth", "input", "display"]
  {
    if action in ActionMap then [StartSettings(ActionMap[action])] else []
  }

  /** The commands `executeInfo` issues for `info` when nothing exits: none for an unknown keyword. */
  function InfoKeywordCommands(info: string): (cmds: seq<Command>)
    ensures cmds != [] <==> SelectInfo(info).Some?
    ensures SelectInfo(info).Some? && SelectInfo(info) != Some(Device) ==> |cmds| == 1
  {
    match SelectInfo(info)
    case None => []
    case Some(Device) => InfoCommands
    case Some(kind) => [DumpCommand(kind)]
  }

  /** The command `executeScreen` issues for `screen`: none for an unknown keyword. */
  function ScreenKeywordCommands(screen: string): (cmds: seq<Command>)
    ensures |cmds| <= 1
    ensures cmds != [] <==> screen in ["png", "mp4"]
  {
    match SelectScreen(screen)
    case None => []
    case Some(kind) => [ScreenCommand(kind)]
  }

  /** The command `executeRotation` issues for `rotation`: none for an unknown keyword. */
  function RotationKeywordCommands(rotation: string): (cmds: seq<Command>)
    ensures |cmds| <= 1
    ensures cmds != [] <==> rotation in ["enable", "disable", "0", "1", "2", "3"]
  {
    match SelectRotation(rotation)
    case None => []
    case Some(r) => [SettingsPut(Setting(r).0, Setting(r).1)]
  }

  /**
   * What `if action != "" { executeAction(action) }` does to a host that is
   * live (`live0`) and whose next reply is the `k`-th: `cmds` and `reps` are
   * what it issues and reports, `live1` whether the host still lives.
   */
  ghost predicate ActionRan(oracle: nat -> Reply, k: nat, live0: bool, live1: bool,
                            cmds: seq<Command>, reps: seq<Report>, action: string)
  {
    if live0 && action != "" && action in ActionMap then
      var cmd := StartSettings(ActionMap[action]);
      var next := Decide(oracle(k), false, None);
      && cmds == [cmd] && live1 == next.Return?
      && reps == (if next.Err? then [ActionFailed(CommandFailed(cmd))] else [])
    else
      cmds == [] && reps == [] && live1 == live0
  }

  /** The same for `if info != "" { executeInfo(info) }`. */
  ghost predicate InfoRan(oracle: nat -> Reply, k: nat, live0: bool, live1: bool,
                          cmds: seq<Command>, reps: seq<Report>, info: string)
  {
    if !live0 || info == "" then
      cmds == [] && reps == [] && live1 == live0
    else
      match SelectInfo(info)
      case None => cmds == [] && reps == [UnknownInfo(info)] && live1
      case Some(Device) => cmds <= InfoCommands && reps == []
      case Some(kind) =>
        var cmd := DumpCommand(kind);
        var next := Decide(oracle(k), false, None);
        && cmds == [cmd] && live1 == !next.Fatal?
        && reps == (if next.Err? then [StrategyFailed(CommandFailed(cmd))] else [])
  }

  /** The same for `if screen != "" { executeScreen(screen) }`. */
  ghost predicate ScreenRan(oracle: nat -> Reply, k: nat, live0: bool, live1: bool,
                            cmds: seq<Command>, reps: seq<Report>, screen: string)
  {
    if !live0 || screen == "" then
      cmds == [] && reps == [] && live1 == live0
    else
      match SelectScreen(screen)
      case None => cmds == [] && reps == [UnknownScreen(screen)] && live1
      case Some(kind) =>
        var cmd := ScreenCommand(kind);
        var next := Decide(oracle(k), false, None);
        && cmds == [cmd] && live1 == !next.Fatal?
        && reps == (if next.Err? then [StrategyFailed(CommandFailed(cmd))] else [])
  }

  /** The same for `if rotation != "" { executeRotation(rotation) }`. */
  ghost predicate RotationRan(oracle: nat -> Reply, k: nat, live0: bool, live1: bool,
                              cmds: seq<Command>, reps: seq<Report>, rotation: string)
  {
    if !live0 || rotation == "" then
      cmds == [] && reps == [] && live1 == live0
    else
      match SelectRotation(rotation)
      case None => cmds == [] && reps == [UnknownRotation(rotation)] && live1
      case Some(r) =>
        var cmd := SettingsPut(Setting(r).0, Setting(r).1);
        var next := Decide(oracle(k), false, None);
        && cmds == [cmd] && live1 == !next.Fatal?
        && reps == (if next.Err? then [StrategyFailed(CommandFailed(cmd))] else [])
  }

  /** `if action != "" { executeAction(action) }`; `cmds` and `reps` are what it adds. */
  method ActionIfAsked(h: Host, action: string) returns (ghost cmds: seq<Command>, ghost reps: seq<Report>)
    modifies h`issued, h`exited, h`reports
    ensures Added(old(h.State()), h.State(), cmds, reps)
    ensures ActionRan(h.oracle, |old(h.issued)|, !old(h.exited), !h.exited, cmds, reps, action)
  {
    ghost var i0, r0 := h.issued, h.reports;
    if action != "" {
      ExecuteAction(h, action);
    }
    cmds, reps := h.issued[|i0|..], h.reports[|r0|..];
  }

  /** `if info != "" { executeInfo(info) }`; `cmds` and `reps` are what it adds. */
  method InfoIfAsked(h: Host, info: string) returns (ghost cmds: seq<Command>, ghost reps: seq<Report>)
    modifies h`issued, h`exited, h`reports
    ensures Added(old(h.State()), h.State(), cmds, reps)
    ensures InfoRan(h.oracle, |old(h.issued)|, !old(h.exited), !h.exited, cmds, reps, info)
  {
    ghost var i0, r0 := h.issued, h.reports;
    if info != "" {
      ExecuteInfo(h, info);
    }
    cmds, reps := h.issued[|i0|..], h.reports[|r0|..];
  }

  /** `if screen != "" { executeScreen(screen) }`; `cmds` and `reps` are what it adds. */
  method ScreenIfAsked(h: Host, screen: string) returns (ghost cmds: seq<Command>, ghost reps: seq<Report>)
    modifies h`issued, h`exited, h`reports
    ensures Added(old(h.State()), h.State(), cmds, reps)
    ensures ScreenRan(h.oracle, |old(h.issued)|, !old(h.exited), !h.exited, cmds, reps, screen)
  {
    ghost var i0, r0 := h.issued, h.reports;
    if screen != "" {
      ExecuteScreen(h, screen);
    }
    cmds, reps := h.issued[|i0|..], h.reports[|r0|..];
  }

  /** `if rotation != "" { executeRotation(rotation) }`; `cmds` and `reps` are what it adds. */
  method RotationIfAsked(h: Host, rotation: string) returns (ghost cmds: seq<Command>, ghost reps: seq<Report>)
    modifies h`issued, h`exited, h`reports
    ensures Added(old(h.State()), h.State(), cmds, reps)
    ensures RotationRan(h.oracle, |old(h.issued)|, !old(h.exited), !h.exited, cmds, reps, rotation)
  {
    ghost var i0, r0 := h.issued, h.reports;
    if rotation != "" {
      ExecuteRotation(h, rotation);
    }
    cmds, reps := h.issued[|i0|..], h.reports[|r0|..];
  }

  /** The host moved from `s` to `t` by issuing `cmds` and reporting `reps`, and no file changed. */
  ghost predicate Added(s: HostState, t: HostState, cmds: seq<Command>, reps: seq<Report>) {
    t.issued == s.issued + cmds && t.reports == s.reports + reps && t.files == s.files
  }

  /**
   * The keyword handlers ran in the order action, info, screen, rotation:
   * handler `i` took the host from `states[i]` to `states[i + 1]`, issuing
   * `issuedBy[i]` and reporting `reportsBy[i]`, on the replies after the
   * commands of the handlers before it.
   */
  ghost predicate KeywordsRan(oracle: nat -> Reply, states: seq<HostState>,
                              issuedBy: seq<seq<Command>>, reportsBy: seq<seq<Report>>,
                              action: string, info: string, screen: string, rotation: string)
  {
    && |states| == 5 && |issuedBy| == |reportsBy| == 4
    && Added(states[0], states[1], issuedBy[0], reportsBy[0])
    && Added(states[1], states[2], issuedBy[1], reportsBy[1])
    && Added(states[2], states[3], issuedBy[2], reportsBy[2])
    && Added(states[3], states[4], issuedBy[3], reportsBy[3])
    && ActionRan(oracle, |states[0].issued|, !states[0].exited, !states[1].exited, issuedBy[0], reportsBy[0], action)
    && InfoRan(oracle, |states[1].issued|, !states[1].exited, !states[2].exited, issuedBy[1], reportsBy[1], info)
    && ScreenRan(oracle, |states[2].issued|, !states[2].exited, !states[3].exited, issuedBy[2], reportsBy[2], screen)
    && RotationRan(oracle, |states[3].issued|, !states[3].exited, !states[4].exited, issuedBy[3], reportsBy[3], rotation)
  }

  /**
   * The keyword handlers of `runAdbCommand`, each skipped when its flag is
   * empty; `states`, `issuedBy` and `reportsBy` are as in `KeywordsRan`.
   */
  method RunKeywordHandlers(h: Host, action: string, info: string, screen: string, rotation: string)
    returns (ghost states: seq<HostState>, ghost issuedBy: seq<seq<Command>>, ghost reportsBy: seq<seq<Report>>)
    modifies h`issued, h`exited, h`reports
    ensures old(h.exited) ==> unchanged(h)
    ensures action == "" && info == "" && screen == "" && rotation == "" ==> unchanged(h)
    ensures old(h.issued) <= h.issued
    ensures |states| == 5 && states[0] == old(h.State()) && states[4] == h.State()
    ensures KeywordsRan(h.oracle, states, issuedBy, reportsBy, action, info, screen, rotation)
  {
    ghost var s0 := h.State();
    ghost var c0, p0 := ActionIfAsked(h, action);
    ghost var s1 := h.State();
    ghost var c1, p1 := InfoIfAsked(h, info);
    ghost var s2 := h.State();
    ghost var c2, p2 := ScreenIfAsked(h, screen);
    ghost var s3 := h.State();
    ghost var c3, p3 := RotationIfAsked(h, rotation);
    states, issuedBy, reportsBy := [s0, s1, s2, s3, h.State()], [c0, c1, c2, c3], [p0, p1, p2, p3];
    KeywordsCompose(h.oracle, s0, s1, s2, s3, h.State(), c0, c1, c2, c3, p0, p1, p2, p3, action, info, screen, rotation);
    if s0.exited || (action == "" && info == "" && screen == "" && rotation == "") {
      KeywordsRanSkipped(h.oracle, states, issuedBy, reportsBy, action, info, screen, rotation);
    }
  }

  /** Nothing changes when the host has exited or no keyword is asked for. */
  lemma KeywordsRanSkipped(oracle: nat -> Reply, states: seq<HostState>,
                           issuedBy: seq<seq<Command>>, reportsBy: seq<seq<Report>>,
                           action: string, info: string, screen: string, rotation: string)
    requires KeywordsRan(oracle, states, issuedBy, reportsBy, action, info, screen, rotation)
    requires states[0].exited || (action == "" && info == "" && screen == "" && rotation == "")
    ensures states[4] == states[0]
  {
  }

  /** The four handlers' runs, one after the other, are what `KeywordsRan` says. */
  lemma KeywordsCompose(oracle: nat -> Reply, s0: HostState, s1: HostState, s2: HostState, s3: HostState, s4: HostState,
                        c0: seq<Command>, c1: seq<Command>, c2: seq<Command>, c3: seq<Command>,
                        p0: seq<Report>, p1: seq<Report>, p2: seq<Report>, p3: seq<Report>,
                        action: string, info: string, screen: string, rotation: string)
    requires Added(s0, s1, c0, p0) && ActionRan(oracle, |s0.issued|, !s0.exited, !s1.exited, c0, p0, action)
    requires Added(s1, s2, c1, p1) && InfoRan(oracle, |s1.issued|, !s1.exited, !s2.exited, c1, p1, info)
    requires Added(s2, s3, c2, p2) && ScreenRan(oracle, |s2.issued|, !s2.exited, !s3.exited, c2, p2, screen)
    requires Added(s3, s4, c3, p3) && RotationRan(oracle, |s3.issued|, !s3.exited, !s4.exited, c3, p3, rotation)
    ensures KeywordsRan(oracle, [s0, s1, s2, s3, s4], [c0, c1, c2, c3], [p0, p1, p2, p3], action, info, screen, rotation)
  {
  }

  /**
   * The handlers' commands and reports, concatenated in order, are all that
   * was added; no file changed.
   */
  lemma KeywordsRanAdds(oracle: nat -> Reply, states: seq<HostState>,
                        issuedBy: seq<seq<Command>>, reportsBy: seq<seq<Report>>,
                        action: string, info: string, screen: string, rotation: string)
    requires KeywordsRan(oracle, states, issuedBy, reportsBy, action, info, screen, rotation)
    ensures states[4].issued == states[0].issued + issuedBy[0] + issuedBy[1] + issuedBy[2] + issuedBy[3]
    ensures states[4].reports == states[0].reports + reportsBy[0] + reportsBy[1] + reportsBy[2] + reportsBy[3]
    ensures states[4].files == states[0].files
  {
  }

  /**
   * A handler runs only while the host lives: once a handler exits, every
   * later handler issues and reports nothing and the host stays exited.
   */
  lemma KeywordsRanLive(oracle: nat -> Reply, states: seq<HostState>,
                        issuedBy: seq<seq<Command>>, reportsBy: seq<seq<Report>>,
                        action: string, info: string, screen: string, rotation: string)
    requires KeywordsRan(oracle, states, issuedBy, reportsBy, action, info, screen, rotation)
    ensures forall i :: 0 <= i < 4 ==> (states[i].exited ==> states[i + 1].exited)
    ensures forall i :: 0 <= i < 4 ==> (states[i].exited ==> issuedBy[i] == [] && reportsBy[i] == [])
  {
  }

  /**
   * A run of the handlers that ends live issued every keyword's commands in
   * order (except that the device report stops at its first failing query).
   */
  lemma KeywordsRanLiveIssues(oracle: nat -> Reply, states: seq<HostState>,
                              issuedBy: seq<seq<Command>>, reportsBy: seq<seq<Report>>,
                              action: string, info: string, screen: string, rotation: string)
    requires KeywordsRan(oracle, states, issuedBy, reportsBy, action, info, screen, rotation)
    requires !states[4].exited && SelectInfo(info) != Some(Device)
    ensures states[4].issued == states[0].issued + ActionCommands(action) + InfoKeywordCommands(info)
                                + ScreenKeywordCommands(screen) + RotationKeywordCommands(rotation)
  {
    KeywordsRanLive(oracle, states, issuedBy, reportsBy, action, info, screen, rotation);
    KeywordsRanAdds(oracle, states, issuedBy, reportsBy, action, info, screen, rotation);
    ActionRanLive(oracle, |states[0].issued|, !states[0].exited, !states[1].exited, issuedBy[0], reportsBy[0], action);
    InfoRanLive(oracle, |states[1].issued|, !states[1].exited, !states[2].exited, issuedBy[1], reportsBy[1], info);
    ScreenRanLive(oracle, |states[2].issued|, !states[2].exited, !states[3].exited, issuedBy[2], reportsBy[2], screen);
    RotationRanLive(oracle, |states[3].issued|, !states[3].exited, !states[4].exited, issuedBy[3], reportsBy[3], rotation);
  }

  /** An action handler after which the host lives issued its keyword's commands. */
  lemma ActionRanLive(oracle: nat -> Reply, k: nat, live0: bool, live1: bool,
                      cmds: seq<Command>, reps: seq<Report>, action: string)
    requires ActionRan(oracle, k, live0, live1, cmds, reps, action) && live1
    ensures cmds == ActionCommands(action)
  {
    assert "" !in ActionMap;
  }

  /** An info handler other than the device report after which the host lives issued its keyword's commands. */
  lemma InfoRanLive(oracle: nat -> Reply, k: nat, live0: bool, live1: bool,
                    cmds: seq<Command>, reps: seq<Report>, info: string)
    requires InfoRan(oracle, k, live0, live1, cmds, reps, info) && live1 && SelectInfo(info) != Some(Device)
    ensures cmds == InfoKeywordCommands(info)
  {
  }

  /** A screen handler after which the host lives issued its keyword's commands. */
  lemma ScreenRanLive(oracle: nat -> Reply, k: nat, live0: bool, live1: bool,
                      cmds: seq<Command>, reps: seq<Report>, screen: string)
    requires ScreenRan(oracle, k, live0, live1, cmds, reps, screen) && live1
    ensures cmds == ScreenKeywordCommands(screen)
  {
  }

  /** A rotation handler after which the host lives issued its keyword's commands. */
  lemma RotationRanLive(oracle: nat -> Reply, k: nat, live0: bool, live1: bool,
                        cmds: seq<Command>, reps: seq<Report>, rotation: string)
    requires RotationRan(oracle, k, live0, live1, cmds, reps, rotation) && live1
    ensures cmds == RotationKeywordCommands(rotation)
  {
  }

  /** With no flag set, no group has a strategy to run. */
  lemma NothingAskedRunsNothing(packageName: string, f: Flags)
    requires NothingAsked(f)
    ensures ApplicableLogs(LogOrder, packageName, f.log) == []
    ensures ApplicableApps(AppStrategies(f.app)) == []
  {
    var ss := AppStrategies(f.app);
    forall j | 0 <= j < |ss| ensures !ss[j].CanHandle() {
      assert ss[j] in ss;
    }
    NoneApplies(ss);
    NoLogApplies(LogOrder, packageName, f.log);
  }

  /** When no log flag is set, no log strategy runs. */
  lemma {:induction false} NoLogApplies(kinds: seq<LogKind>, packageName: string, config: LogConfig)
    requires forall j :: 0 <= j < |kinds| ==> !CanHandle(kinds[j], packageName, config)
    ensures ApplicableLogs(kinds, packageName, config) == []
    decreases |kinds|
  {
    if kinds != [] {
      NoLogApplies(kinds[..|kinds| - 1], packageName, config);
    }
  }

  /**
   * The groups ran from `s0` to `states[0]`, and then the keyword handlers
   * ran through `states`.
   */
  ghost predicate HandlersRan(oracle: nat -> Reply, s0: HostState, packageName: string, f: Flags,
                              states: seq<HostState>, issuedBy: seq<seq<Command>>, reportsBy: seq<seq<Report>>)
  {
    && |states| == 5
    && GroupsRan(oracle, s0, states[0], packageName, f.log, AppStrategies(f.app))
    && KeywordsRan(oracle, states, issuedBy, reportsBy, f.action, f.info, f.screen, f.rotation)
  }

  /**
   * `runAdbCommand` after the lookup, with the keyword handlers' states and
   * contributions as in `HandlersRan`.
   */
  method RunHandlers(h: Host, packageName: string, f: Flags)
    returns (ghost states: seq<HostState>, ghost issuedBy: seq<seq<Command>>, ghost reportsBy: seq<seq<Report>>)
    modifies h`issued, h`exited, h`reports, h`files
    ensures old(h.exited) || NothingAsked(f) ==> unchanged(h)
    ensures old(h.issued) <= h.issued
    ensures |states| == 5 && states[4] == h.State()
    ensures HandlersRan(h.oracle, old(h.State()), packageName, f, states, issuedBy, reportsBy)
  {
    if NothingAsked(f) {
      NothingAskedRunsNothing(packageName, f);
    }
    RunGroups(h, packageName, f.log, f.app);
    states, issuedBy, reportsBy := RunKeywordHandlers(h, f.action, f.info, f.screen, f.rotation);
  }

  /**
   * `runAdbCommand`: a failed lookup is reported and exits; otherwise the
   * handlers run on the foreground package, with the results of `RunHandlers`.
   */
  method RunAdbCommand(h: Host, f: Flags)
    returns (ghost states: seq<HostState>, ghost issuedBy: seq<seq<Command>>, ghost reportsBy: seq<seq<Report>>)
    modifies h`issued, h`exited, h`reports, h`files
    ensures old(h.exited) ==> unchanged(h)
    ensures !old(h.exited) ==>
      var l := CurrentLookup(Decide(h.oracle(|old(h.issued)|), false, None),
                             Decide(h.oracle(|old(h.issued)| + 1), false, None));
      && old(h.issued) + l.cmds <= h.issued
      && (l.exits ==> h.issued == old(h.issued) + l.cmds && h.reports == old(h.reports) && h.exited)
      && (l.err.Some? ==>
            && h.issued == old(h.issued) + l.cmds
            && h.reports == old(h.reports) + [CurrentActivityFailed(l.err.value)]
            && h.exited)
      && (NothingAsked(f) && !l.exits && l.err.None? ==> h.issued == old(h.issued) + l.cmds && h.reports == old(h.reports))
      && (!l.exits && l.err.None? ==>
            && |states| == 5 && states[4] == h.State()
            && HandlersRan(h.oracle, HostState(old(h.issued) + l.cmds, old(h.reports), false, old(h.files)),
                           ForegroundPackage(l.res), f, states, issuedBy, reportsBy))
  {
    var res, err := CurrentPackageAndActivity(h);
    if err.Some? {
      h.Report(CurrentActivityFailed(err.value));
      h.Exit();
      states, issuedBy, reportsBy := [], [], [];
      return;
    }
    states, issuedBy, reportsBy := RunHandlers(h, ForegroundPackage(res), f);
  }
}
