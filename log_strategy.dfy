/**
 * strategy/log_strategy.go: the four log strategies. Each is chosen by one
 * field of the log configuration and prints what one query returns, or
 * returns the first error it meets.
 */
module LogStrategy {
  import opened Wrappers
  import opened ExecPolicy
  import opened Adb

  /** config.LogConfig: the `-c`, `-a`, `-f` and `-p` flags. */
  datatype LogConfig = LogConfig(
    logCurrentActivity: bool, logAllActivity: bool, logAllFragment: bool, logSpecificPackageActivity: string)

  datatype LogKind = CurrentActivity | AllActivity | AllFragment | SpecificPackageActivity

  /** The `CanHandle` methods; none looks at the package name. */
  predicate CanHandle(kind: LogKind, packageName: string, config: LogConfig) {
    match kind
    case CurrentActivity => config.logCurrentActivity
    case AllActivity => config.logAllActivity
    case AllFragment => config.logAllFragment
    case SpecificPackageActivity => config.logSpecificPackageActivity != ""
  }

  /** Each strategy applies exactly when its own flag is set, whatever the package. */
  lemma CanHandleIsItsFlag(packageName: string, other: string, config: LogConfig)
    ensures CanHandle(CurrentActivity, packageName, config) <==> config.logCurrentActivity
    ensures CanHandle(AllActivity, packageName, config) <==> config.logAllActivity
    ensures CanHandle(AllFragment, packageName, config) <==> config.logAllFragment
    ensures CanHandle(SpecificPackageActivity, packageName, config) <==> config.logSpecificPackageActivity != ""
    ensures forall kind :: CanHandle(kind, packageName, config) == CanHandle(kind, other, config)
  {
  }

  /** `LogCurrentActivityStrategy.Run`: print the current activity unless the lookup failed. */
  method RunCurrentActivity(h: Host) returns (printed: Option<string>, err: Option<Error>)
    modifies h`issued, h`exited
    ensures old(h.exited) ==> unchanged(h)
    ensures printed.Some? <==> err.None?
    ensures !old(h.exited) ==>
      var l := CurrentLookup(Decide(h.oracle(|old(h.issued)|), false, None),
                             Decide(h.oracle(|old(h.issued)| + 1), false, None));
      && h.issued == old(h.issued) + l.cmds && h.exited == l.exits && err == l.err
      && (err.None? ==> printed == Some(l.res))
  {
    var res, e := CurrentPackageAndActivity(h);
    if e.Some? {
      return None, e;
    }
    return Some(res), None;
  }

  /** `LogAllActivityStrategy.Run`: print the activity stack unless the query failed. */
  method RunAllActivity(h: Host) returns (printed: Option<string>, err: Option<Error>)
    modifies h`issued, h`exited
    ensures old(h.exited) ==> unchanged(h)
    ensures printed.Some? <==> err.None?
    ensures !old(h.exited) ==>
      && h.issued == old(h.issued) + [ActivityListQuery]
      && h.exited == old(h.NextStrict()).Fatal?
      && err == ErrorOf(old(h.NextStrict()), ActivityListQuery)
      && (err.None? ==> printed == Some(TextOf(old(h.NextStrict()))))
  {
    var res, e := ActivityList(h);
    if e.Some? {
      return None, e;
    }
    return Some(res), None;
  }

  /** `LogAllFragmentStrategy.Run`: print the fragments of the package unless the query failed. */
  method RunAllFragment(h: Host, packageName: string) returns (printed: Option<string>, err: Option<Error>)
    modifies h`issued, h`exited
    ensures old(h.exited) ==> unchanged(h)
    ensures printed.Some? <==> err.None?
    ensures !old(h.exited) ==>
      && h.issued == old(h.issued) + [FragmentDump(packageName)]
      && h.exited == old(h.NextStrict()).Fatal?
      && err == ErrorOf(old(h.NextStrict()), FragmentDump(packageName))
      && (err.None? ==> printed == Some(TextOf(old(h.NextStrict()))))
  {
    var res, e := h.Exec(FragmentDump(packageName), false, None);
    if e.Some? {
      return None, e;
    }
    return Some(res), None;
  }

  /**
   * `LogSpecificPackageActivityStrategy.Run`: filter the activity stack; a
   * failed stack query is returned before the filter is issued.
   */
  method RunSpecificPackageActivity(h: Host, filter: string) returns (printed: Option<string>, err: Option<Error>)
    modifies h`issued, h`exited
    ensures old(h.exited) ==> unchanged(h)
    ensures printed.Some? <==> err.None?
    ensures !old(h.exited) ==>
      var k := |old(h.issued)|;
      var list := Decide(h.oracle(k), false, None);
      var grep := Decide(h.oracle(k + 1), false, None);
      if list.Err? then
        && !h.exited && h.issued == old(h.issued) + [ActivityListQuery]
        && err == Some(CommandFailed(ActivityListQuery))
      else if list.Fatal? then
        h.exited && h.issued == old(h.issued) + [ActivityListQuery] && err == None
      else
        && h.issued == old(h.issued) + [ActivityListQuery, ActivityGrep(list.text, filter)]
        && h.exited == grep.Fatal?
        && err == ErrorOf(grep, ActivityGrep(list.text, filter))
        && (err.None? ==> printed == Some(TextOf(grep)))
  {
    var activityList, e := ActivityList(h);
    if e.Some? {
      return None, e;
    }
    var res, e2 := h.Exec(ActivityGrep(activityList, filter), false, None);
    if e2.Some? {
      return None, e2;
    }
    return Some(res), None;
  }

  /** The query each log strategy starts with. */
  function FirstLogCommand(kind: LogKind, packageName: string): Command {
    match kind
    case CurrentActivity => CurrentActivityQuery
    case AllFragment => FragmentDump(packageName)
    case _ => ActivityListQuery
  }

  /** The commands one log strategy issues, whether they exit, and the error it returns. */
  datatype LogRun = LogRun(cmds: seq<Command>, exits: bool, err: Option<Error>)

  /**
   * What the strategy `kind` does when its queries get the replies from
   * position `k` of `oracle` on.
   */
  function LogEffect(oracle: nat -> Reply, k: nat, kind: LogKind, packageName: string, config: LogConfig): (r: LogRun)
    ensures 1 <= |r.cmds| <= 2 && r.cmds[0] == FirstLogCommand(kind, packageName)
    ensures r.err.Some? ==> !r.exits && r.err == Some(CommandFailed(r.cmds[|r.cmds| - 1]))
    ensures r.exits ==> Decide(oracle(k + |r.cmds| - 1), false, None).Fatal?
  {
    var first := Decide(oracle(k), false, None);
    var second := Decide(oracle(k + 1), false, None);
    match kind
    case CurrentActivity =>
      var l := CurrentLookup(first, second);
      LogRun(l.cmds, l.exits, l.err)
    case AllActivity => LogRun([ActivityListQuery], first.Fatal?, ErrorOf(first, ActivityListQuery))
    case AllFragment => LogRun([FragmentDump(packageName)], first.Fatal?, ErrorOf(first, FragmentDump(packageName)))
    case SpecificPackageActivity =>
      if first.Err? then LogRun([ActivityListQuery], false, Some(CommandFailed(ActivityListQuery)))
      else if first.Fatal? then LogRun([ActivityListQuery], true, None)
      else
        var grep := ActivityGrep(first.text, config.logSpecificPackageActivity);
        LogRun([ActivityListQuery, grep], second.Fatal?, ErrorOf(second, grep))
  }

  /** `s.Run(packageName, config)` through the `LogStrategy` interface. */
  method RunLog(h: Host, kind: LogKind, packageName: string, config: LogConfig)
    returns (printed: Option<string>, err: Option<Error>)
    modifies h`issued, h`exited
    ensures old(h.exited) ==> unchanged(h)
    ensures printed.Some? <==> err.None?
    ensures !old(h.exited) ==> |old(h.issued)| < |h.issued| && old(h.issued) <= h.issued
    ensures !old(h.exited) ==>
      var e := LogEffect(h.oracle, |old(h.issued)|, kind, packageName, config);
      h.issued == old(h.issued) + e.cmds && h.exited == e.exits && err == e.err
  {
    match kind
    case CurrentActivity => printed, err := RunCurrentActivity(h);
    case AllActivity => printed, err := RunAllActivity(h);
    case AllFragment => printed, err := RunAllFragment(h, packageName);
    case SpecificPackageActivity => printed, err := RunSpecificPackageActivity(h, config.logSpecificPackageActivity);
  }
}
