/**
 * strategy/app_strategy.go: the eight app strategies (clear data, kill,
 * grant, revoke, start, restart, detail page, export), each bound to the
 * package name it was constructed with.
 */
module AppStrategy {
  import opened Wrappers
  import opened Strings
  import opened Lines
  import opened ExecPolicy
  import opened Adb

  datatype AppKind = ClearData | Kill | Grant | Revoke | Start | Restart | Detail | Export

  /** One of the `...Strategy` structs: which one, and its `PackageName` field. */
  datatype AppStrategy = AppStrategy(kind: AppKind, packageName: string) {

    /** `CanHandle`: the strategy was asked for. */
    predicate CanHandle() {
      packageName != ""
    }

    /** `GetPackageName`. */
    function GetPackageName(): string {
      packageName
    }
  }

  /** What every `NewXStrategy(packageName)` builds. */
  lemma NewStrategy(kind: AppKind, packageName: string)
    ensures AppStrategy(kind, packageName).GetPackageName() == packageName
    ensures AppStrategy(kind, packageName).CanHandle() <==> packageName != ""
  {
  }

  // ---------------------------------------------------------------------
  // Grant: the requested-permissions section of `dumpsys package`.

  /** A line that opens the section. */
  predicate IsHeader(line: string) {
    Contains(line, "requested permissions:")
  }

  /** A line that can belong to the section. */
  predicate IsPermissionLine(line: string) {
    Contains(line, ".permission.")
  }

  /** `strings.TrimSpace(strings.ReplaceAll(line, ":", ""))`. */
  function PermissionName(line: string): (name: string)
    ensures ':' !in name
    ensures name == [] || (!IsSpace(name[0]) && !IsSpace(name[|name| - 1]))
  {
    TrimSpace(RemoveAll(line, ':'))
  }

  /**
   * After `lines` a section is open: some header line is followed only by
   * permission lines.
   */
  predicate SectionOpen(lines: seq<string>) {
    exists j :: 0 <= j < |lines| && IsHeader(lines[j]) &&
      forall k :: j < k < |lines| ==> IsPermissionLine(lines[k])
  }

  /** Line `i` is an entry of a section: a permission line, not a header, inside an open section. */
  predicate InSection(lines: seq<string>, i: nat)
    requires i < |lines|
  {
    !IsHeader(lines[i]) && IsPermissionLine(lines[i]) && SectionOpen(lines[..i])
  }

  /** The names of the section entries, in the order of their lines. */
  function SectionEntries(lines: seq<string>): seq<string>
    decreases |lines|
  {
    if lines == [] then []
    else
      var n := |lines| - 1;
      SectionEntries(lines[..n]) + (if InSection(lines, n) then [PermissionName(lines[n])] else [])
  }

  /** A section is open after a header, or after a permission line in an open section. */
  lemma SectionOpenStep(lines: seq<string>, i: nat)
    requires i < |lines|
    ensures SectionOpen(lines[..i + 1]) <==>
      IsHeader(lines[i]) || (IsPermissionLine(lines[i]) && SectionOpen(lines[..i]))
  {
    SectionOpens(lines, i);
    if SectionOpen(lines[..i + 1]) {
      SectionWasOpen(lines, i);
    }
  }

  /** A header opens a section, and a permission line keeps an open one open. */
  lemma SectionOpens(lines: seq<string>, i: nat)
    requires i < |lines|
    ensures IsHeader(lines[i]) || (IsPermissionLine(lines[i]) && SectionOpen(lines[..i])) ==>
      SectionOpen(lines[..i + 1])
  {
    var next := lines[..i + 1];
    if IsHeader(lines[i]) {
      assert next[i] == lines[i];
    } else if IsPermissionLine(lines[i]) && SectionOpen(lines[..i]) {
      var j :| 0 <= j < i && IsHeader(lines[..i][j]) &&
        forall k :: j < k < i ==> IsPermissionLine(lines[..i][k]);
      assert next[j] == lines[..i][j];
      forall k | j < k < i + 1 ensures IsPermissionLine(next[k]) {
        if k < i {
          assert next[k] == lines[..i][k];
        }
      }
    }
  }

  /** An open section that the last line did not open was already open, and that line is a permission line. */
  lemma SectionWasOpen(lines: seq<string>, i: nat)
    requires i < |lines|
    requires SectionOpen(lines[..i + 1])
    ensures IsHeader(lines[i]) || (IsPermissionLine(lines[i]) && SectionOpen(lines[..i]))
  {
    var next := lines[..i + 1];
    var j :| 0 <= j < i + 1 && IsHeader(next[j]) &&
      forall k :: j < k < i + 1 ==> IsPermissionLine(next[k]);
    if j < i {
      assert IsPermissionLine(next[i]);
      assert lines[..i][j] == next[j];
      forall k | j < k < i ensures IsPermissionLine(lines[..i][k]) {
        assert lines[..i][k] == next[k];
      }
    }
  }

  /** `getRequestedPermissions`: the loop with its `inPermissionSection` flag. */
  method GetRequestedPermissions(lines: seq<string>) returns (permissions: seq<string>)
    ensures permissions == SectionEntries(lines)
  {
    permissions := [];
    var inPermissionSection := false;
    for i := 0 to |lines|
      invariant permissions == SectionEntries(lines[..i])
      invariant inPermissionSection == SectionOpen(lines[..i])
    {
      var line := lines[i];
      SectionOpenStep(lines, i);
      assert lines[..i + 1][..i] == lines[..i];
      if !Contains(line, ".permission.") {
        inPermissionSection := false;
      }
      if Contains(line, "requested permissions:") {
        inPermissionSection := true;
        continue;
      }
      if inPermissionSection {
        permissions := permissions + [PermissionName(line)];
      }
    }
    assert lines[..|lines|] == lines;
  }

  /** Without a header line there is no entry. */
  lemma {:induction false} NoHeaderNoEntries(lines: seq<string>)
    requires forall i :: 0 <= i < |lines| ==> !IsHeader(lines[i])
    ensures SectionEntries(lines) == []
    decreases |lines|
  {
    if lines != [] {
      var n := |lines| - 1;
      NoHeaderNoEntries(lines[..n]);
      assert !SectionOpen(lines[..n]) by {
        forall j | 0 <= j < n ensures !IsHeader(lines[..n][j]) {
          assert lines[..n][j] == lines[j];
        }
      }
    }
  }

  /** Whether line `i` is an entry depends only on the lines up to it. */
  lemma InSectionPrefix(lines: seq<string>, n: nat, i: nat)
    requires i < n <= |lines|
    ensures InSection(lines[..n], i) <==> InSection(lines, i)
  {
    assert lines[..n][..i] == lines[..i];
  }

  /**
   * Every entry is the cleaned form of a section line, so never of a header
   * and never of a line without ".permission.".
   */
  lemma {:induction false} EntriesComeFromSectionLines(lines: seq<string>)
    ensures forall e :: e in SectionEntries(lines) ==>
      exists i :: 0 <= i < |lines| && InSection(lines, i) && e == PermissionName(lines[i])
    decreases |lines|
  {
    if lines != [] {
      var n := |lines| - 1;
      EntriesComeFromSectionLines(lines[..n]);
      forall e | e in SectionEntries(lines)
        ensures exists i :: 0 <= i < |lines| && InSection(lines, i) && e == PermissionName(lines[i])
      {
        if e in SectionEntries(lines[..n]) {
          var i :| 0 <= i < n && InSection(lines[..n], i) && e == PermissionName(lines[..n][i]);
          InSectionPrefix(lines, n, i);
        }
      }
    }
  }

  /** Entries hold no ':' and no white space at either end. */
  lemma {:induction false} EntriesAreClean(lines: seq<string>)
    ensures forall e :: e in SectionEntries(lines) ==>
      ':' !in e && (e == [] || (!IsSpace(e[0]) && !IsSpace(e[|e| - 1])))
    decreases |lines|
  {
    if lines != [] {
      EntriesAreClean(lines[..|lines| - 1]);
    }
  }

  /**
   * A header followed by permission lines and then a line without
   * ".permission." yields exactly those permission lines, cleaned, in order.
   */
  lemma {:induction false} HeaderThenPermissions(header: string, perms: seq<string>, last: string)
    requires IsHeader(header) && !IsPermissionLine(last)
    requires forall p :: p in perms ==> IsPermissionLine(p) && !IsHeader(p)
    ensures SectionEntries([header] + perms + [last]) == PermissionNames(perms)
    decreases |perms|
  {
    var lines := [header] + perms + [last];
    var n := |lines| - 1;
    assert lines[..n] == [header] + perms;
    assert !InSection(lines, n);
    HeaderSection(header, perms);
  }

  /** The part of `HeaderThenPermissions` before the closing line. */
  lemma {:induction false} HeaderSection(header: string, perms: seq<string>)
    requires IsHeader(header)
    requires forall p :: p in perms ==> IsPermissionLine(p) && !IsHeader(p)
    ensures SectionOpen([header] + perms)
    ensures SectionEntries([header] + perms) == PermissionNames(perms)
    decreases |perms|
  {
    HeaderOpens(header, perms);
    if perms == [] {
      assert [header] + perms == [header];
      assert [header][..0] == [];
    } else {
      var m := |perms| - 1;
      var lines := [header] + perms;
      assert lines[..m + 1] == [header] + perms[..m];
      HeaderSection(header, perms[..m]);
      assert lines[m + 1] == perms[m];
      assert InSection(lines, m + 1);
    }
  }

  /** The cleaned names of `perms`, in order. */
  function PermissionNames(perms: seq<string>): seq<string>
    decreases |perms|
  {
    if perms == [] then []
    else
      var m := |perms| - 1;
      PermissionNames(perms[..m]) + [PermissionName(perms[m])]
  }

  /** A header followed by permission lines leaves the section open. */
  lemma HeaderOpens(header: string, perms: seq<string>)
    requires IsHeader(header)
    requires forall p :: p in perms ==> IsPermissionLine(p)
    ensures SectionOpen([header] + perms)
  {
    var lines := [header] + perms;
    assert IsHeader(lines[0]);
    forall k | 0 < k < |lines| ensures IsPermissionLine(lines[k]) {
      assert lines[k] == perms[k - 1];
    }
  }

  // ---------------------------------------------------------------------
  // Revoke: the granted permissions of `dumpsys package`.

  /** A line naming a granted permission. */
  predicate IsGrantedLine(line: string) {
    Contains(line, "permission") && Contains(line, "granted=true")
  }

  /** `strings.TrimSpace(strings.Split(line, ":")[0])`. */
  function RevokeName(line: string): string {
    TrimSpace(Split(line, ':')[0])
  }

  /** The name revoked for a line is the trimmed text before its first ':'. */
  lemma RevokeNameBeforeColon(line: string)
    ensures exists k :: 0 <= k <= |line| && ':' !in line[..k] && (k < |line| ==> line[k] == ':') &&
                        RevokeName(line) == TrimSpace(line[..k])
    ensures ':' !in RevokeName(line)
  {
    SplitFirst(line, ':');
    var first := Split(line, ':')[0];
    assert first == line[..|first|];
  }

  /** The permissions revoked for `lines`, in the order of the lines. */
  function RevokeTargets(lines: seq<string>): seq<string>
    decreases |lines|
  {
    if lines == [] then []
    else
      var n := |lines| - 1;
      RevokeTargets(lines[..n]) + (if IsGrantedLine(lines[n]) then [RevokeName(lines[n])] else [])
  }

  /** There is one target per granted line. */
  lemma RevokeTargetsCount(lines: seq<string>)
    ensures |RevokeTargets(lines)| == |set i | 0 <= i < |lines| && IsGrantedLine(lines[i])|
  {
    RevokeTargetsCountUpTo(lines, |lines|);
    assert lines[..|lines|] == lines;
    assert GrantedBelow(lines, |lines|) == set i | 0 <= i < |lines| && IsGrantedLine(lines[i]);
  }

  /** The granted lines among the first `n`. */
  ghost function GrantedBelow(lines: seq<string>, n: nat): set<nat>
    requires n <= |lines|
  {
    set i: nat | i < n && IsGrantedLine(lines[i])
  }

  lemma {:induction false} RevokeTargetsCountUpTo(lines: seq<string>, n: nat)
    requires n <= |lines|
    ensures |RevokeTargets(lines[..n])| == |GrantedBelow(lines, n)|
  {
    if n == 0 {
      assert GrantedBelow(lines, 0) == {};
    } else {
      RevokeTargetsCountUpTo(lines, n - 1);
      RevokeTargetsStep(lines, n - 1);
      GrantedBelowStep(lines, n - 1);
    }
  }

  /** One more line adds its index when it is granted. */
  lemma GrantedBelowStep(lines: seq<string>, n: nat)
    requires n < |lines|
    ensures |GrantedBelow(lines, n + 1)| == |GrantedBelow(lines, n)| + (if IsGrantedLine(lines[n]) then 1 else 0)
  {
    if IsGrantedLine(lines[n]) {
      assert n !in GrantedBelow(lines, n);
      assert GrantedBelow(lines, n + 1) == GrantedBelow(lines, n) + {n};
    } else {
      assert GrantedBelow(lines, n + 1) == GrantedBelow(lines, n);
    }
  }

  /** No target holds a ':'. */
  lemma {:induction false} RevokeTargetsHaveNoColon(lines: seq<string>)
    ensures forall t :: t in RevokeTargets(lines) ==> ':' !in t
    decreases |lines|
  {
    if lines != [] {
      var n := |lines| - 1;
      RevokeTargetsHaveNoColon(lines[..n]);
      RevokeNameBeforeColon(lines[n]);
    }
  }

  // ---------------------------------------------------------------------
  // The commands the strategies issue.

  function GrantCommands(pkg: string, permissions: seq<string>): (cmds: seq<Command>)
    ensures |cmds| == |permissions|
    ensures forall i :: 0 <= i < |cmds| ==> cmds[i] == PmGrant(pkg, permissions[i])
  {
    seq(|permissions|, i requires 0 <= i < |permissions| => PmGrant(pkg, permissions[i]))
  }

  function RevokeCommands(pkg: string, permissions: seq<string>): (cmds: seq<Command>)
    ensures |cmds| == |permissions|
    ensures forall i :: 0 <= i < |cmds| ==> cmds[i] == PmRevoke(pkg, permissions[i])
  {
    seq(|permissions|, i requires 0 <= i < |permissions| => PmRevoke(pkg, permissions[i]))
  }

  /** The stderr text that makes a grant end the process. */
  predicate GrantDenied(msg: string) {
    Contains(msg, "Neither user 2000 nor current process has android.permission.GRANT_RUNTIME_PERMISSIONS")
  }

  // ---------------------------------------------------------------------
  // Run.

  /** `ClearAppDataStrategy.Run`. */
  method RunClearData(h: Host, pkg: string) returns (err: Option<Error>)
    modifies h`issued, h`exited
    ensures old(h.exited) ==> unchanged(h) && err == None
    ensures !old(h.exited) ==>
      && h.issued == old(h.issued) + [PmClear(pkg)]
      && h.exited == old(h.NextStrict()).Fatal?
      && err == ErrorOf(old(h.NextStrict()), PmClear(pkg))
    ensures !old(h.exited) ==> old(h.issued) + [PmClear(pkg)] <= h.issued
    ensures !old(h.exited) ==> RanApp(h, old(h.issued), AppEffect(h.oracle, |old(h.issued)|, ClearData, pkg, old(h.files)), err)
  {
    err := RunCommand(h, PmClear(pkg));
  }

  /** `KillStrategy.Run`. */
  method RunKill(h: Host, pkg: string) returns (err: Option<Error>)
    modifies h`issued, h`exited
    ensures old(h.exited) ==> unchanged(h) && err == None
    ensures !old(h.exited) ==>
      && h.issued == old(h.issued) + [ForceStop(pkg)]
      && h.exited == old(h.NextStrict()).Fatal?
      && err == ErrorOf(old(h.NextStrict()), ForceStop(pkg))
    ensures !old(h.exited) ==> old(h.issued) + [ForceStop(pkg)] <= h.issued
    ensures !old(h.exited) ==> RanApp(h, old(h.issued), AppEffect(h.oracle, |old(h.issued)|, Kill, pkg, old(h.files)), err)
  {
    err := RunCommand(h, ForceStop(pkg));
  }

  /** `StartActivityStrategy.Run`. */
  method RunStart(h: Host, pkg: string) returns (err: Option<Error>)
    modifies h`issued, h`exited
    ensures old(h.exited) ==> unchanged(h) && err == None
    ensures !old(h.exited) ==>
      && h.issued == old(h.issued) + [MonkeyLaunch(pkg)]
      && h.exited == old(h.NextStrict()).Fatal?
      && err == ErrorOf(old(h.NextStrict()), MonkeyLaunch(pkg))
    ensures !old(h.exited) ==> old(h.issued) + [MonkeyLaunch(pkg)] <= h.issued
    ensures !old(h.exited) ==> RanApp(h, old(h.issued), AppEffect(h.oracle, |old(h.issued)|, Start, pkg, old(h.files)), err)
  {
    err := RunCommand(h, MonkeyLaunch(pkg));
  }

  /** `StartAppDetailStrategy.Run`. */
  method RunDetail(h: Host, pkg: string) returns (err: Option<Error>)
    modifies h`issued, h`exited
    ensures old(h.exited) ==> unchanged(h) && err == None
    ensures !old(h.exited) ==>
      && h.issued == old(h.issued) + [AppDetails(pkg)]
      && h.exited == old(h.NextStrict()).Fatal?
      && err == ErrorOf(old(h.NextStrict()), AppDetails(pkg))
    ensures !old(h.exited) ==> old(h.issued) + [AppDetails(pkg)] <= h.issued
    ensures !old(h.exited) ==> RanApp(h, old(h.issued), AppEffect(h.oracle, |old(h.issued)|, Detail, pkg, old(h.files)), err)
  {
    err := RunCommand(h, AppDetails(pkg));
  }

  /** `RestartAppStrategy.Run`: kill, then start unless the kill failed. */
  method RunRestart(h: Host, pkg: string) returns (err: Option<Error>)
    modifies h`issued, h`exited
    ensures old(h.exited) ==> unchanged(h) && err == None
    ensures !old(h.exited) ==>
      var k := |old(h.issued)|;
      var kill := Decide(h.oracle(k), false, None);
      var start := Decide(h.oracle(k + 1), false, None);
      match kill
      case Fatal => h.exited && h.issued == old(h.issued) + [ForceStop(pkg)] && err == None
      case Err => !h.exited && h.issued == old(h.issued) + [ForceStop(pkg)] && err == Some(CommandFailed(ForceStop(pkg)))
      case Return(_) =>
        && h.issued == old(h.issued) + [ForceStop(pkg), MonkeyLaunch(pkg)]
        && h.exited == start.Fatal?
        && err == ErrorOf(start, MonkeyLaunch(pkg))
    ensures !old(h.exited) ==> old(h.issued) + [ForceStop(pkg)] <= h.issued
    ensures !old(h.exited) ==> RanApp(h, old(h.issued), AppEffect(h.oracle, |old(h.issued)|, Restart, pkg, old(h.files)), err)
  {
    var e := RunKill(h, pkg);
    if e.Some? {
      return e;
    }
    err := RunStart(h, pkg);
  }

  /** `GrantStrategy.Run`: one grant per requested permission. */
  method RunGrant(h: Host, pkg: string) returns (err: Option<Error>)
    modifies h`issued, h`exited
    ensures old(h.exited) ==> unchanged(h) && err == None
    ensures !old(h.exited) ==>
      match old(h.NextStrict())
      case Fatal => h.exited && h.issued == old(h.issued) + [PackageDump(pkg)] && err == None
      case Err =>
        && !h.exited && h.issued == old(h.issued) + [PackageDump(pkg)]
        && err == Some(CommandFailed(PackageDump(pkg)))
      case Return(out) =>
        var grants := RunUntilExit(h.oracle, |old(h.issued)| + 1,
          GrantCommands(pkg, SectionEntries(MultiLine(out))), true, Some(GrantDenied));
        && h.issued == old(h.issued) + [PackageDump(pkg)] + grants.0
        && h.exited == grants.1
        && err == None
    ensures !old(h.exited) ==> old(h.issued) + [PackageDump(pkg)] <= h.issued
    ensures !old(h.exited) ==> RanApp(h, old(h.issued), AppEffect(h.oracle, |old(h.issued)|, Grant, pkg, old(h.files)), err)
  {
    ghost var dump := h.NextStrict();
    var output, e := h.Exec(PackageDump(pkg), false, None);
    if !dump.Return? {
      EffectWithoutReply(h.oracle, |old(h.issued)|, Grant, pkg, h.files);
    }
    if e.Some? {
      return e;
    }
    var permissions := GetRequestedPermissions(MultiLine(output));
    if !h.exited {
      assert h.issued == old(h.issued) + [PackageDump(pkg)] && output == old(h.NextStrict()).text;
    }
    RunAll(h, GrantCommands(pkg, permissions), true, Some(GrantDenied));
    if !old(h.exited) && dump.Return? {
      GrantRan(h.oracle, |old(h.issued)|, pkg, h.files, old(h.issued), h.issued, h.exited);
    }
    return None;
  }

  /** The revoke loop of `RevokeStrategy.Run`: errors are ignored and nothing exits. */
  method RevokeAll(h: Host, pkg: string, lines: seq<string>)
    modifies h`issued, h`exited
    ensures old(h.exited) ==> unchanged(h)
    ensures !old(h.exited) ==> !h.exited && h.issued == old(h.issued) + RevokeCommands(pkg, RevokeTargets(lines))
  {
    for i := 0 to |lines|
      invariant old(h.exited) ==> unchanged(h)
      invariant !old(h.exited) ==> !h.exited && h.issued == old(h.issued) + RevokeCommands(pkg, RevokeTargets(lines[..i]))
    {
      ghost var done := RevokeTargets(lines[..i]);
      RevokeTargetsStep(lines, i);
      var line := lines[i];
      if Contains(line, "permission") && Contains(line, "granted=true") {
        var parts := Split(line, ':');
        if |parts| > 0 {
          var permission := TrimSpace(parts[0]);
          var _, _ := h.Exec(PmRevoke(pkg, permission), true, None);
          RevokeCommandsSnoc(pkg, done, permission);
        }
      }
    }
    assert lines[..|lines|] == lines;
  }

  /** One more line adds its target, if it has one. */
  lemma RevokeTargetsStep(lines: seq<string>, i: nat)
    requires i < |lines|
    ensures RevokeTargets(lines[..i + 1]) ==
      RevokeTargets(lines[..i]) + (if IsGrantedLine(lines[i]) then [RevokeName(lines[i])] else [])
  {
    assert lines[..i + 1][..i] == lines[..i];
  }

  /** One more target adds its revoke command. */
  lemma RevokeCommandsSnoc(pkg: string, targets: seq<string>, t: string)
    ensures RevokeCommands(pkg, targets + [t]) == RevokeCommands(pkg, targets) + [PmRevoke(pkg, t)]
  {
  }

  /** `RevokeStrategy.Run`: one revoke per granted line. */
  method RunRevoke(h: Host, pkg: string) returns (err: Option<Error>)
    modifies h`issued, h`exited
    ensures old(h.exited) ==> unchanged(h) && err == None
    ensures !old(h.exited) ==>
      match old(h.NextStrict())
      case Fatal => h.exited && h.issued == old(h.issued) + [PackageDump(pkg)] && err == None
      case Err =>
        && !h.exited && h.issued == old(h.issued) + [PackageDump(pkg)]
        && err == Some(CommandFailed(PackageDump(pkg)))
      case Return(out) =>
        && !h.exited
        && h.issued == old(h.issued) + [PackageDump(pkg)] + RevokeCommands(pkg, RevokeTargets(MultiLine(out)))
        && err == None
    ensures !old(h.exited) ==> old(h.issued) + [PackageDump(pkg)] <= h.issued
    ensures !old(h.exited) ==> RanApp(h, old(h.issued), AppEffect(h.oracle, |old(h.issued)|, Revoke, pkg, old(h.files)), err)
  {
    ghost var dump := h.NextStrict();
    var output, e := h.Exec(PackageDump(pkg), false, None);
    if !dump.Return? {
      EffectWithoutReply(h.oracle, |old(h.issued)|, Revoke, pkg, h.files);
    }
    if e.Some? {
      return e;
    }
    RevokeAll(h, pkg, MultiLine(output));
    if !old(h.exited) && dump.Return? {
      RevokeRan(h.oracle, |old(h.issued)|, pkg, h.files, output, old(h.issued), h.issued);
    }
    return None;
  }

  // ---------------------------------------------------------------------
  // Export.

  /** The file the APK is pulled to. */
  function DestFile(pkg: string): string {
    "./" + pkg + ".apk"
  }

  /** Some line of the package listing mentions the package. */
  predicate Listed(lines: seq<string>, pkg: string) {
    exists i :: 0 <= i < |lines| && Contains(lines[i], pkg)
  }

  /** The loop with its `packageExists` flag and `break`. */
  method FindPackage(lines: seq<string>, pkg: string) returns (packageExists: bool)
    ensures packageExists <==> Listed(lines, pkg)
  {
    packageExists := false;
    var i := 0;
    while i < |lines|
      invariant 0 <= i <= |lines|
      invariant forall j :: 0 <= j < i ==> !Contains(lines[j], pkg)
    {
      if Contains(lines[i], pkg) {
        packageExists := true;
        break;
      }
      i := i + 1;
    }
  }

  /** `strings.TrimPrefix(strings.TrimSpace(apkPath), "package:")`. */
  function ApkPath(output: string): (path: string)
    ensures path == "" <==> TrimSpace(output) == "" || TrimSpace(output) == "package:"
    ensures "package:" <= TrimSpace(output) ==> TrimSpace(output) == "package:" + path
    ensures !("package:" <= TrimSpace(output)) ==> path == TrimSpace(output)
  {
    TrimPrefix(TrimSpace(output), "package:")
  }

  /** The commands the pull stage issues, whether they exit, the files left behind and the error. */
  datatype PullRun = PullRun(cmds: seq<Command>, exits: bool, files: set<string>, err: Option<Error>)

  /**
   * What the pull stage of Export does for `pkg` with `files` on disk when
   * its queries get the replies from position `k` of `oracle` on.
   */
  function PullEffect(oracle: nat -> Reply, k: nat, pkg: string, files: set<string>): (r: PullRun)
    ensures 1 <= |r.cmds| <= 2 && r.cmds[0] == PmPath(pkg)
    ensures r.files == files || (r.files == files + {DestFile(pkg)} && |r.cmds| == 2 && r.err.None? && !r.exits)
    ensures DestFile(pkg) in files ==> r.files == files && r.cmds == [PmPath(pkg)]
    ensures var path := Decide(oracle(k), false, None);
      r.err == Some(ApkPathNotFound) <==> path.Fatal? || (path.Return? && ApkPath(path.text) == "")
  {
    var path := Decide(oracle(k), false, None);
    if path.Fatal? then PullRun([PmPath(pkg)], true, files, Some(ApkPathNotFound))
    else if path.Err? then PullRun([PmPath(pkg)], false, files, Some(CommandFailed(PmPath(pkg))))
    else
      var f := PullFrom(oracle, k + 1, pkg, path.text, files);
      PullRun([PmPath(pkg)] + f.cmds, f.exits, f.files, f.err)
  }

  /**
   * The rest of the pull stage once `pm path` printed `output`: no pull
   * when it names no file or the file is already on disk; the pull's reply
   * is at position `k` of `oracle`.
   */
  function PullFrom(oracle: nat -> Reply, k: nat, pkg: string, output: string, files: set<string>): (r: PullRun)
    ensures |r.cmds| <= 1
    ensures r.files == files || (r.files == files + {DestFile(pkg)} && |r.cmds| == 1 && r.err.None? && !r.exits)
    ensures DestFile(pkg) in files ==> r.files == files && r.cmds == []
    ensures r.err == Some(ApkPathNotFound) <==> ApkPath(output) == ""
  {
    var pull := Decide(oracle(k), false, None);
    var dest := DestFile(pkg);
    if ApkPath(output) == "" then PullRun([], false, files, Some(ApkPathNotFound))
    else if dest in files then PullRun([], false, files, None)
    else
      var cmd := Pull(ApkPath(output), dest);
      PullRun([cmd], pull.Fatal?, if pull.Return? then files + {dest} else files, ErrorOf(pull, cmd))
  }

  /** `PullEffect` depends on the position only through its value. */
  lemma PullEffectAt(oracle: nat -> Reply, k1: nat, k2: nat, pkg: string, files: set<string>)
    requires k1 == k2
    ensures PullEffect(oracle, k1, pkg, files) == PullEffect(oracle, k2, pkg, files)
  {
  }

  /** `PullFrom` depends on the position only through its value. */
  lemma PullFromAt(oracle: nat -> Reply, k1: nat, k2: nat, pkg: string, output: string, files: set<string>)
    requires k1 == k2
    ensures PullFrom(oracle, k1, pkg, output, files) == PullFrom(oracle, k2, pkg, output, files)
  {
  }

  /**
   * The part of `ExportAppStrategy.Run` after the package was found: an
   * error when `pm path` names no file, no pull over an existing file.
   */
  method PullApk(h: Host, pkg: string) returns (err: Option<Error>)
    modifies h`issued, h`exited, h`files
    ensures old(h.exited) ==> unchanged(h) && err == Some(ApkPathNotFound)
    ensures !old(h.exited) ==>
      var e := PullEffect(h.oracle, |old(h.issued)|, pkg, old(h.files));
      h.issued == old(h.issued) + e.cmds && h.exited == e.exits && h.files == e.files && err == e.err
    ensures !old(h.exited) ==> old(h.issued) + [PmPath(pkg)] <= h.issued
  {
    ghost var path := h.NextStrict();
    var output, e := h.Exec(PmPath(pkg), false, None);
    if e.Some? {
      PullEffectNoPath(h.oracle, |old(h.issued)|, pkg, old(h.files));
      return e;
    }
    ghost var issued1 := h.issued;
    err := PullStage(h, pkg, output);
    if !old(h.exited) && !path.Return? {
      PullEffectNoPath(h.oracle, |old(h.issued)|, pkg, old(h.files));
    } else if !old(h.exited) {
      ghost var f := PullFrom(h.oracle, |old(h.issued)| + 1, pkg, output, old(h.files));
      PullEffectAfterPath(h.oracle, |old(h.issued)|, pkg, old(h.files));
      PullFromAt(h.oracle, |issued1|, |old(h.issued)| + 1, pkg, output, old(h.files));
      PullComposes(PullEffect(h.oracle, |old(h.issued)|, pkg, old(h.files)), f, pkg,
                   old(h.issued), issued1, h.issued, h.exited, h.files, err);
    }
  }

  /** `pm path` followed by the rest `f` of the stage is the whole stage `e`. */
  lemma PullComposes(e: PullRun, f: PullRun, pkg: string,
                     i0: seq<Command>, i1: seq<Command>, i2: seq<Command>, x2: bool, f2: set<string>, err2: Option<Error>)
    requires e == PullRun([PmPath(pkg)] + f.cmds, f.exits, f.files, f.err)
    requires i1 == i0 + [PmPath(pkg)]
    requires i2 == i1 + f.cmds && x2 == f.exits && f2 == f.files && err2 == f.err
    ensures i2 == i0 + e.cmds && x2 == e.exits && f2 == e.files && err2 == e.err
  {
    assert i2 == i0 + ([PmPath(pkg)] + f.cmds);
  }

  /** When `pm path` fails or exits, the stage ends with it. */
  lemma PullEffectNoPath(oracle: nat -> Reply, k: nat, pkg: string, files: set<string>)
    requires !Decide(oracle(k), false, None).Return?
    ensures var path := Decide(oracle(k), false, None);
      PullEffect(oracle, k, pkg, files) ==
        PullRun([PmPath(pkg)], path.Fatal?, files,
                if path.Fatal? then Some(ApkPathNotFound) else Some(CommandFailed(PmPath(pkg))))
  {
  }

  /** When `pm path` returns, the stage is that command followed by `PullFrom`. */
  lemma PullEffectAfterPath(oracle: nat -> Reply, k: nat, pkg: string, files: set<string>)
    requires Decide(oracle(k), false, None).Return?
    ensures var f := PullFrom(oracle, k + 1, pkg, Decide(oracle(k), false, None).text, files);
      PullEffect(oracle, k, pkg, files) == PullRun([PmPath(pkg)] + f.cmds, f.exits, f.files, f.err)
  {
  }

  /** The pull stage after `pm path`, as `PullFrom` states it. */
  method PullStage(h: Host, pkg: string, output: string) returns (err: Option<Error>)
    modifies h`issued, h`exited, h`files
    ensures old(h.exited) ==> unchanged(h) && (ApkPath(output) == "" ==> err == Some(ApkPathNotFound))
    ensures !old(h.exited) ==>
      var f := PullFrom(h.oracle, |old(h.issued)|, pkg, output, old(h.files));
      h.issued == old(h.issued) + f.cmds && h.exited == f.exits && h.files == f.files && err == f.err
  {
    var apkPath := ApkPath(output);
    if apkPath == "" {
      return Some(ApkPathNotFound);
    }
    var destFile := DestFile(pkg);
    if destFile in h.files {
      return None;
    }
    err := PullOnce(h, apkPath, destFile);
  }

  /** The `adb pull`, and the file it leaves behind when it succeeds. */
  method PullOnce(h: Host, src: string, dest: string) returns (err: Option<Error>)
    modifies h`issued, h`exited, h`files
    ensures old(h.exited) ==> unchanged(h)
    ensures !old(h.exited) ==>
      && h.issued == old(h.issued) + [Pull(src, dest)]
      && h.exited == old(h.NextStrict()).Fatal?
      && err == ErrorOf(old(h.NextStrict()), Pull(src, dest))
      && h.files == if old(h.NextStrict()).Return? then old(h.files) + {dest} else old(h.files)
  {
    var _, e := h.Exec(Pull(src, dest), false, None);
    if e.Some? {
      return e;
    }
    h.CreateFile(dest);
    return None;
  }

  /** `ExportAppStrategy.Run`: nothing more is done when the package is not listed. */
  method RunExport(h: Host, pkg: string) returns (err: Option<Error>)
    modifies h`issued, h`exited, h`files
    ensures old(h.exited) ==> unchanged(h)
    ensures !old(h.exited) ==>
      var list := old(h.NextStrict());
      if list.Fatal? then
        h.exited && h.issued == old(h.issued) + [ListPackages(pkg)] && h.files == old(h.files)
      else if list.Err? then
        && !h.exited && h.issued == old(h.issued) + [ListPackages(pkg)] && h.files == old(h.files)
        && err == Some(CommandFailed(ListPackages(pkg)))
      else if !Listed(MultiLine(list.text), pkg) then
        !h.exited && h.issued == old(h.issued) + [ListPackages(pkg)] && h.files == old(h.files) && err == None
      else
        var e := PullEffect(h.oracle, |old(h.issued)| + 1, pkg, old(h.files));
        && h.issued == old(h.issued) + [ListPackages(pkg)] + e.cmds
        && h.exited == e.exits && h.files == e.files && err == e.err
    ensures !old(h.exited) ==> old(h.issued) + [ListPackages(pkg)] <= h.issued
    ensures !old(h.exited) ==> RanApp(h, old(h.issued), AppEffect(h.oracle, |old(h.issued)|, Export, pkg, old(h.files)), err)
  {
    ghost var list := h.NextStrict();
    var output, e := h.Exec(ListPackages(pkg), false, None);
    if !list.Return? {
      EffectWithoutReply(h.oracle, |old(h.issued)|, Export, pkg, h.files);
    }
    if e.Some? {
      return e;
    }
    ghost var listed := h.issued;
    err := PullIfListed(h, pkg, output);
    if !Listed(MultiLine(output), pkg) {
      assert h.issued == listed;
    }
    if !old(h.exited) && list.Return? {
      ExportRan(h.oracle, |old(h.issued)|, pkg, old(h.files), output, old(h.issued), listed, h.issued, h.exited, h.files, err);
    }
  }

  /** The `packageExists` test, then the pull when the package is listed. */
  method PullIfListed(h: Host, pkg: string, output: string) returns (err: Option<Error>)
    modifies h`issued, h`exited, h`files
    ensures old(h.exited) ==> unchanged(h)
    ensures !old(h.exited) ==>
      if Listed(MultiLine(output), pkg) then
        var e := PullEffect(h.oracle, |old(h.issued)|, pkg, old(h.files));
        h.issued == old(h.issued) + e.cmds && h.exited == e.exits && h.files == e.files && err == e.err
      else unchanged(h) && err == None
    ensures old(h.issued) <= h.issued
  {
    var packageExists := FindPackage(MultiLine(output), pkg);
    if !packageExists {
      return None;
    }
    err := PullApk(h, pkg);
  }

  /** The first command each strategy issues. */
  function FirstCommand(kind: AppKind, pkg: string): Command {
    match kind
    case ClearData => PmClear(pkg)
    case Kill => ForceStop(pkg)
    case Grant => PackageDump(pkg)
    case Revoke => PackageDump(pkg)
    case Start => MonkeyLaunch(pkg)
    case Restart => ForceStop(pkg)
    case Detail => AppDetails(pkg)
    case Export => ListPackages(pkg)
  }

  /** The commands one app strategy issues, whether they exit, the files afterwards and the error it returns. */
  datatype AppRun = AppRun(cmds: seq<Command>, exits: bool, files: set<string>, err: Option<Error>)

  /** A strategy that issues `cmd` with reply `k` and returns its error. */
  function SingleEffect(oracle: nat -> Reply, k: nat, cmd: Command, files: set<string>): AppRun {
    var o := Decide(oracle(k), false, None);
    AppRun([cmd], o.Fatal?, files, ErrorOf(o, cmd))
  }

  /**
   * What the strategy `kind` for `pkg` does when its commands get the
   * replies from position `k` of `oracle` on: the per-kind contracts above,
   * as one value. A strategy that exits the process leaves no error.
   */
  function AppEffect(oracle: nat -> Reply, k: nat, kind: AppKind, pkg: string, files: set<string>): (r: AppRun)
    ensures 1 <= |r.cmds| && r.cmds[0] == FirstCommand(kind, pkg)
    ensures r.err.Some? ==> !r.exits
    ensures kind != Export ==> r.files == files
    ensures r.files == files || r.files == files + {DestFile(pkg)}
  {
    var first := Decide(oracle(k), false, None);
    match kind
    case ClearData => SingleEffect(oracle, k, PmClear(pkg), files)
    case Kill => SingleEffect(oracle, k, ForceStop(pkg), files)
    case Start => SingleEffect(oracle, k, MonkeyLaunch(pkg), files)
    case Detail => SingleEffect(oracle, k, AppDetails(pkg), files)
    case Restart =>
      if !first.Return? then SingleEffect(oracle, k, ForceStop(pkg), files)
      else
        var start := SingleEffect(oracle, k + 1, MonkeyLaunch(pkg), files);
        AppRun([ForceStop(pkg)] + start.cmds, start.exits, files, start.err)
    case Grant =>
      if !first.Return? then SingleEffect(oracle, k, PackageDump(pkg), files)
      else
        var grants := RunUntilExit(oracle, k + 1, GrantCommands(pkg, SectionEntries(MultiLine(first.text))),
                                   true, Some(GrantDenied));
        AppRun([PackageDump(pkg)] + grants.0, grants.1, files, None)
    case Revoke =>
      if !first.Return? then SingleEffect(oracle, k, PackageDump(pkg), files)
      else AppRun([PackageDump(pkg)] + RevokeCommands(pkg, RevokeTargets(MultiLine(first.text))), false, files, None)
    case Export =>
      if !first.Return? then SingleEffect(oracle, k, ListPackages(pkg), files)
      else if !Listed(MultiLine(first.text), pkg) then AppRun([ListPackages(pkg)], false, files, None)
      else
        var pull := PullEffect(oracle, k + 1, pkg, files);
        AppRun([ListPackages(pkg)] + pull.cmds, pull.exits, pull.files, if pull.exits then None else pull.err)
  }

  /** A strategy whose first command gets no text back stops there, whatever its kind. */
  lemma EffectWithoutReply(oracle: nat -> Reply, k: nat, kind: AppKind, pkg: string, files: set<string>)
    requires !Decide(oracle(k), false, None).Return?
    ensures AppEffect(oracle, k, kind, pkg, files) == SingleEffect(oracle, k, FirstCommand(kind, pkg), files)
  {
  }

  /** Grant after a dump that returned text. */
  lemma GrantEffectAfterDump(oracle: nat -> Reply, k: nat, pkg: string, files: set<string>)
    requires Decide(oracle(k), false, None).Return?
    ensures var grants := RunUntilExit(oracle, k + 1,
      GrantCommands(pkg, SectionEntries(MultiLine(Decide(oracle(k), false, None).text))), true, Some(GrantDenied));
      AppEffect(oracle, k, Grant, pkg, files) == AppRun([PackageDump(pkg)] + grants.0, grants.1, files, None)
  {
  }

  /** What `GrantStrategy.Run` does after a dump that returned text is what `AppEffect` says. */
  lemma GrantRan(oracle: nat -> Reply, k: nat, pkg: string, files: set<string>,
                 i0: seq<Command>, i2: seq<Command>, x2: bool)
    requires k == |i0| && Decide(oracle(k), false, None).Return?
    requires var grants := RunUntilExit(oracle, k + 1,
      GrantCommands(pkg, SectionEntries(MultiLine(Decide(oracle(k), false, None).text))), true, Some(GrantDenied));
      i2 == i0 + [PackageDump(pkg)] + grants.0 && x2 == grants.1
    ensures var e := AppEffect(oracle, k, Grant, pkg, files);
      i2 == i0 + e.cmds && x2 == e.exits && files == e.files && e.err == None
  {
    GrantEffectAfterDump(oracle, k, pkg, files);
    var grants := RunUntilExit(oracle, k + 1,
      GrantCommands(pkg, SectionEntries(MultiLine(Decide(oracle(k), false, None).text))), true, Some(GrantDenied));
    AppendAssoc(i0, [PackageDump(pkg)], grants.0);
  }

  /** What `RevokeStrategy.Run` does after a dump that returned text is what `AppEffect` says. */
  lemma RevokeRan(oracle: nat -> Reply, k: nat, pkg: string, files: set<string>, output: string,
                  i0: seq<Command>, i2: seq<Command>)
    requires k == |i0| && Decide(oracle(k), false, None) == Return(output)
    requires i2 == i0 + [PackageDump(pkg)] + RevokeCommands(pkg, RevokeTargets(MultiLine(output)))
    ensures var e := AppEffect(oracle, k, Revoke, pkg, files);
      i2 == i0 + e.cmds && !e.exits && files == e.files && e.err == None
  {
    AppendAssoc(i0, [PackageDump(pkg)], RevokeCommands(pkg, RevokeTargets(MultiLine(output))));
  }

  /** What `ExportAppStrategy.Run` does after a listing that returned text is what `AppEffect` says. */
  lemma ExportRan(oracle: nat -> Reply, k: nat, pkg: string, files: set<string>, output: string,
                  i0: seq<Command>, i1: seq<Command>, i2: seq<Command>, x2: bool, f2: set<string>, err: Option<Error>)
    requires k == |i0| && Decide(oracle(k), false, None) == Return(output)
    requires i1 == i0 + [ListPackages(pkg)]
    requires if Listed(MultiLine(output), pkg) then
        var pull := PullEffect(oracle, |i1|, pkg, files);
        i2 == i1 + pull.cmds && x2 == pull.exits && f2 == pull.files && err == pull.err
      else i2 == i1 && !x2 && f2 == files && err == None
    ensures var e := AppEffect(oracle, k, Export, pkg, files);
      i2 == i0 + e.cmds && x2 == e.exits && f2 == e.files && (!e.exits ==> err == e.err)
  {
    ExportEffectAfterList(oracle, k, pkg, files);
    PullEffectAt(oracle, |i1|, k + 1, pkg, files);
    AppendAssoc(i0, [ListPackages(pkg)], PullEffect(oracle, k + 1, pkg, files).cmds);
  }

  /** Export after a listing that returned text. */
  lemma ExportEffectAfterList(oracle: nat -> Reply, k: nat, pkg: string, files: set<string>)
    requires Decide(oracle(k), false, None).Return?
    ensures var pull := PullEffect(oracle, k + 1, pkg, files);
      AppEffect(oracle, k, Export, pkg, files) ==
        if Listed(MultiLine(Decide(oracle(k), false, None).text), pkg)
        then AppRun([ListPackages(pkg)] + pull.cmds, pull.exits, pull.files, if pull.exits then None else pull.err)
        else AppRun([ListPackages(pkg)], false, files, None)
  {
  }

  /**
   * Since `issued0`, the host did what `e` does; `err` is its error unless
   * it exited.
   */
  ghost predicate RanApp(h: Host, issued0: seq<Command>, e: AppRun, err: Option<Error>)
    reads h
  {
    h.issued == issued0 + e.cmds && h.exited == e.exits && h.files == e.files && (!e.exits ==> err == e.err)
  }

  /**
   * `s.Run(packageName)` through the `AppStrategy` interface. Once the
   * strategy has exited the process its error is never seen, so the
   * error is stated only for a run that does not exit.
   */
  method RunApp(h: Host, s: AppStrategy, pkg: string) returns (err: Option<Error>)
    modifies h`issued, h`exited, h`files
    ensures old(h.exited) ==> unchanged(h)
    ensures !old(h.exited) ==> RanApp(h, old(h.issued), AppEffect(h.oracle, |old(h.issued)|, s.kind, pkg, old(h.files)), err)
    ensures !old(h.exited) ==> old(h.issued) + [FirstCommand(s.kind, pkg)] <= h.issued
  {
    match s.kind
    case ClearData => err := RunClearData(h, pkg);
    case Kill => err := RunKill(h, pkg);
    case Grant => err := RunGrant(h, pkg);
    case Revoke => err := RunRevoke(h, pkg);
    case Start => err := RunStart(h, pkg);
    case Restart => err := RunRestart(h, pkg);
    case Detail => err := RunDetail(h, pkg);
    case Export => err := RunExport(h, pkg);
  }
}
