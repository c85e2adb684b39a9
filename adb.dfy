/**
 * The side of the tool that talks to the outside world: util/exec.go's
 * `Exec` run against an oracle of command results, and the two shell
 * queries of adb/adb_util.go. The host records every command it issues,
 * the messages the dispatcher writes to stderr, the local files, and
 * whether the process has exited. After `os.Exit` nothing can happen, so
 * every operation of an exited host leaves it as it is.
 */
module Adb {
  import opened Wrappers
  import opened Strings
  import opened ExecPolicy

  /** The shell commands the tool issues; their text and quoting are not modelled. */
  datatype Command =
    | CurrentActivityQuery                          // dumpsys ... | grep mResumedActivity
    | CurrentActivityFallbackQuery                  // dumpsys ... | grep ResumedActivity | grep -v top
    | ActivityListQuery                             // dumpsys ... | grep -e 'Hist #' -e '* Hist'
    | FragmentDump(pkg: string)                     // dumpsys activity <pkg> | grep fragments
    | ActivityGrep(list: string, filter: string)    // echo '<list>' | grep <filter>
    | PmClear(pkg: string)
    | ForceStop(pkg: string)
    | PackageDump(pkg: string)                      // dumpsys package <pkg>
    | PmGrant(pkg: string, permission: string)
    | PmRevoke(pkg: string, permission: string)
    | MonkeyLaunch(pkg: string)
    | AppDetails(pkg: string)
    | ListPackages(pkg: string)
    | PmPath(pkg: string)
    | Pull(apkPath: string, dest: string)
    | GetProp(name: string)
    | WmDensity
    | DumpDisplays
    | AndroidId
    | IfconfigMask
    | Imei
    | CpuInfoDump
    | MemInfoDump
    | BatteryDump
    | Screencap
    | ScreenRecord
    | SettingsPut(key: string, value: nat)          // settings put system <key> <value>
    | StartSettings(intent: string)                 // am start -a <intent>

  /** Go `error` values: the failed command's error, or one the tool makes itself. */
  datatype Error = CommandFailed(cmd: Command) | ApkPathNotFound

  /** The messages the dispatcher writes to stderr. */
  datatype Report =
    | CurrentActivityFailed(error: Error)
    | StrategyFailed(error: Error)
    | ActionFailed(error: Error)
    | UnknownInfo(keyword: string)
    | UnknownScreen(keyword: string)
    | UnknownRotation(keyword: string)

  /** The text `x, _ := Exec(...)` leaves in `x`. */
  function TextOf(o: Outcome): string {
    if o.Return? then o.text else ""
  }

  /** The error `_, err := Exec(cmd, ...)` leaves in `err` (an exit leaves none behind). */
  function ErrorOf(o: Outcome, cmd: Command): Option<Error> {
    if o.Err? then Some(CommandFailed(cmd)) else None
  }

  /**
   * The commands issued when `cmds` are run one after the other from reply
   * `start` on, all with the same flags, and whether one of them exited.
   * A run stops at the first exit.
   */
  function RunUntilExit(oracle: nat -> Reply, start: nat, cmds: seq<Command>,
                        ignoreError: bool, exitWhen: Option<string -> bool>): (r: (seq<Command>, bool))
    ensures r.0 <= cmds
    ensures !r.1 ==> r.0 == cmds
    decreases |cmds|
  {
    if cmds == [] then ([], false)
    else
      var prefix := RunUntilExit(oracle, start, cmds[..|cmds| - 1], ignoreError, exitWhen);
      if prefix.1 then prefix
      else (cmds, Decide(oracle(start + |cmds| - 1), ignoreError, exitWhen).Fatal?)
  }

  /**
   * A run that exits stops right after the first command whose reply is
   * fatal, and a run that does not exit met no fatal reply at all.
   */
  lemma {:induction false} RunUntilExitStops(oracle: nat -> Reply, start: nat, cmds: seq<Command>,
                                             ignoreError: bool, exitWhen: Option<string -> bool>)
    ensures var r := RunUntilExit(oracle, start, cmds, ignoreError, exitWhen);
      && (r.1 ==> r.0 != [] && Decide(oracle(start + |r.0| - 1), ignoreError, exitWhen).Fatal?)
      && (forall j :: start <= j < start + |r.0| - 1 ==> !Decide(oracle(j), ignoreError, exitWhen).Fatal?)
      && (!r.1 ==> forall j :: start <= j < start + |cmds| ==> !Decide(oracle(j), ignoreError, exitWhen).Fatal?)
    decreases |cmds|
  {
    if cmds != [] {
      RunUntilExitStops(oracle, start, cmds[..|cmds| - 1], ignoreError, exitWhen);
    }
  }

  /** Concatenation regroups. */
  lemma AppendAssoc<T>(a: seq<T>, b: seq<T>, c: seq<T>)
    ensures a + b + c == a + (b + c)
  {
  }

  /** Running one more command: nothing happens after an exit, otherwise it is issued. */
  lemma RunUntilExitStep(oracle: nat -> Reply, start: nat, cmds: seq<Command>, c: Command,
                         ignoreError: bool, exitWhen: Option<string -> bool>)
    ensures RunUntilExit(oracle, start, cmds + [c], ignoreError, exitWhen) ==
      var prefix := RunUntilExit(oracle, start, cmds, ignoreError, exitWhen);
      if prefix.1 then prefix
      else (cmds + [c], Decide(oracle(start + |cmds|), ignoreError, exitWhen).Fatal?)
  {
    assert (cmds + [c])[..|cmds|] == cmds;
  }

  /** What a `Host` has done so far, as a value. */
  datatype HostState = HostState(issued: seq<Command>, reports: seq<Report>, exited: bool, files: set<string>)

  class Host {
    /** The reply the k-th command ever issued gets. */
    const oracle: nat -> Reply
    /** The commands issued so far, in order. */
    var issued: seq<Command>
    /** The files in the working directory. */
    var files: set<string>
    /** The lines written to stderr by the dispatcher, in order. */
    var reports: seq<Report>
    /** `os.Exit(1)` has been called. */
    var exited: bool

    constructor (oracle: nat -> Reply, files: set<string>)
      ensures this.oracle == oracle && this.files == files
      ensures issued == [] && reports == [] && !exited
    {
      this.oracle := oracle;
      this.files := files;
      issued := [];
      reports := [];
      exited := false;
    }

    /** The host's state as a value. */
    ghost function State(): HostState
      reads this
    {
      HostState(issued, reports, exited, files)
    }

    /** The outcome the next command run with `Exec(cmd, ignoreError, exitWhen)` has. */
    function Next(ignoreError: bool, exitWhen: Option<string -> bool>): Outcome
      reads this
    {
      Decide(oracle(|issued|), ignoreError, exitWhen)
    }

    /** The same for `Exec(cmd, false, nil)`, the call nearly every strategy makes. */
    function NextStrict(): Outcome
      reads this
    {
      Next(false, None)
    }

    /** util/exec.go `Exec`. */
    method Exec(cmd: Command, ignoreError: bool, exitWhen: Option<string -> bool>)
      returns (text: string, err: Option<Error>)
      modifies this`issued, this`exited
      ensures old(exited) ==> unchanged(this) && text == "" && err == None
      ensures !old(exited) ==>
        && issued == old(issued) + [cmd]
        && exited == old(Next(ignoreError, exitWhen)).Fatal?
        && text == TextOf(old(Next(ignoreError, exitWhen)))
        && err == ErrorOf(old(Next(ignoreError, exitWhen)), cmd)
    {
      if exited {
        return "", None;
      }
      var outcome := Decide(oracle(|issued|), ignoreError, exitWhen);
      issued := issued + [cmd];
      match outcome
      case Return(t) =>
        text, err := t, None;
      case Err =>
        text, err := "", Some(CommandFailed(cmd));
      case Fatal =>
        exited := true;
        text, err := "", None;
    }

    /** `fmt.Fprintf(os.Stderr, ...)` by the dispatcher. */
    method Report(r: Report)
      modifies this`reports
      ensures reports == if old(exited) then old(reports) else old(reports) + [r]
    {
      if !exited {
        reports := reports + [r];
      }
    }

    /** `os.Exit(1)`. */
    method Exit()
      modifies this`exited
      ensures exited
    {
      exited := true;
    }

    /** A successful `adb pull` has written `name`. */
    method CreateFile(name: string)
      modifies this`files
      ensures files == if old(exited) then old(files) else old(files) + {name}
    {
      if !exited {
        files := files + {name};
      }
    }
  }

  /** `for _, c := range cmds { Exec(c, ignoreError, exitWhen) }`, every result dropped. */
  method RunAll(h: Host, cmds: seq<Command>, ignoreError: bool, exitWhen: Option<string -> bool>)
    modifies h`issued, h`exited
    ensures old(h.exited) ==> unchanged(h)
    ensures !old(h.exited) ==>
      var run := RunUntilExit(h.oracle, |old(h.issued)|, cmds, ignoreError, exitWhen);
      h.issued == old(h.issued) + run.0 && h.exited == run.1
  {
    for i := 0 to |cmds|
      invariant old(h.exited) ==> unchanged(h)
      invariant !old(h.exited) ==> RanFrom(h, old(h.issued), cmds[..i], ignoreError, exitWhen)
    {
      assert cmds[..i + 1] == cmds[..i] + [cmds[i]];
      ExecNext(h, old(h.issued), cmds[..i], cmds[i], ignoreError, exitWhen);
    }
    assert cmds[..|cmds|] == cmds;
  }

  /** After `before`, the host issued what running `cmds` from there issues, and exited as that run did. */
  ghost predicate RanFrom(h: Host, before: seq<Command>, cmds: seq<Command>,
                          ignoreError: bool, exitWhen: Option<string -> bool>)
    reads h
  {
    var run := RunUntilExit(h.oracle, |before|, cmds, ignoreError, exitWhen);
    h.issued == before + run.0 && h.exited == run.1
  }

  /** One turn of the loop in `RunAll`. */
  method ExecNext(h: Host, ghost before: seq<Command>, ghost done: seq<Command>, c: Command,
                  ignoreError: bool, exitWhen: Option<string -> bool>)
    modifies h`issued, h`exited
    ensures old(h.exited) ==> unchanged(h)
    ensures old(RanFrom(h, before, done, ignoreError, exitWhen)) ==> RanFrom(h, before, done + [c], ignoreError, exitWhen)
  {
    RunUntilExitStep(h.oracle, |before|, done, c, ignoreError, exitWhen);
    if RanFrom(h, before, done, ignoreError, exitWhen) && !h.exited {
      assert h.issued == before + done;
    }
    var _, _ := h.Exec(c, ignoreError, exitWhen);
  }

  /** `_, err := Exec(cmd, false, nil); return err`: the body of every one-command strategy. */
  method RunCommand(h: Host, cmd: Command) returns (err: Option<Error>)
    modifies h`issued, h`exited
    ensures old(h.exited) ==> unchanged(h) && err == None
    ensures !old(h.exited) ==>
      && h.issued == old(h.issued) + [cmd]
      && h.exited == old(h.NextStrict()).Fatal?
      && err == ErrorOf(old(h.NextStrict()), cmd)
  {
    var _, e := h.Exec(cmd, false, None);
    err := e;
  }

  /** adb/adb_util.go `GetActivityListStringFromTopToBottom`. */
  method ActivityList(h: Host) returns (list: string, err: Option<Error>)
    modifies h`issued, h`exited
    ensures old(h.exited) ==> unchanged(h) && list == "" && err == None
    ensures !old(h.exited) ==>
      && h.issued == old(h.issued) + [ActivityListQuery]
      && h.exited == old(h.NextStrict()).Fatal?
      && list == TextOf(old(h.NextStrict()))
      && err == ErrorOf(old(h.NextStrict()), ActivityListQuery)
  {
    list, err := h.Exec(ActivityListQuery, false, None);
  }

  /** What the current-activity lookup does: the commands it issues, whether it exits, its result and error. */
  datatype Lookup = Lookup(cmds: seq<Command>, exits: bool, res: string, err: Option<Error>)

  /** The first answer is used unless it is an error or blank. */
  predicate NeedsFallback(first: Outcome) {
    first.Err? || (first.Return? && TrimSpace(first.text) == "")
  }

  /**
   * adb/adb_util.go `GetCurrentPackageAndActivityName` given the outcomes of
   * its first and (if issued) second query.
   */
  function CurrentLookup(first: Outcome, second: Outcome): (l: Lookup)
    ensures l.cmds == if NeedsFallback(first) then [CurrentActivityQuery, CurrentActivityFallbackQuery]
                      else [CurrentActivityQuery]
    ensures l.exits <==> first.Fatal? || (NeedsFallback(first) && second.Fatal?)
    ensures l.err.Some? <==> NeedsFallback(first) && second.Err?
    ensures l.err.Some? ==> l.err == Some(CommandFailed(CurrentActivityFallbackQuery))
    ensures first.Return? && !NeedsFallback(first) ==> l.res == TrimSuffix(first.text, "}\n")
    ensures NeedsFallback(first) && second.Return? ==> l.res == TrimSuffix(second.text, "}\n")
  {
    if first.Fatal? then Lookup([CurrentActivityQuery], true, "", None)
    else if !NeedsFallback(first) then Lookup([CurrentActivityQuery], false, TrimSuffix(first.text, "}\n"), None)
    else
      Lookup([CurrentActivityQuery, CurrentActivityFallbackQuery], second.Fatal?,
             TrimSuffix(TextOf(second), "}\n"), ErrorOf(second, CurrentActivityFallbackQuery))
  }

  /**
   * adb/adb_util.go `GetCurrentPackageAndActivityName`: the resumed activity,
   * asked a second way when the first answer is an error or blank, with a
   * trailing "}\n" removed.
   */
  method CurrentPackageAndActivity(h: Host) returns (res: string, err: Option<Error>)
    modifies h`issued, h`exited
    ensures old(h.exited) ==> unchanged(h) && res == "" && err == None
    ensures !old(h.exited) ==>
      var l := CurrentLookup(Decide(h.oracle(|old(h.issued)|), false, None),
                             Decide(h.oracle(|old(h.issued)| + 1), false, None));
      h.issued == old(h.issued) + l.cmds && h.exited == l.exits && res == l.res && err == l.err
  {
    var result, e := h.Exec(CurrentActivityQuery, false, None);
    if e.Some? || TrimSpace(result) == "" {
      result, e := h.Exec(CurrentActivityFallbackQuery, false, None);
      if e.Some? {
        return "", e;
      }
      return TrimSuffix(result, "}\n"), None;
    }
    return TrimSuffix(result, "}\n"), None;
  }
}
