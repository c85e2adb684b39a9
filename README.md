# rabbit-go adb wrapper, modelled in Dafny

rabbit-go is a command-line front end to Android's `adb`. Each invocation
looks up the package in the foreground. It then runs every log and app
strategy whose option is set, in their declared order, followed by the
action, info, screen and rotation handlers. Every strategy shells out to `adb`
through one executor, `util.Exec`, which reads the text that comes back.

This project models:

- **The executor's policy** (`ExecPolicy`). Given stdout, stderr, the failure
  flag, `ignoreError` and the optional `exitWhen` predicate, it decides
  whether the caller gets text, an error, or whether the process prints and
  exits.
- **The device as an object** (`Adb.Host`). The host records every command
  issued, the reports written to stderr, the files on disk and whether the
  process has exited. Replies come from an oracle indexed by command
  position. `Host.Exec` applies the policy. Once the process has exited, it
  issues nothing more. The thin `Exec` wrapper in `adb/adb_util.go` and
  `GetCurrentPackageAndActivityName` (a first lookup with a fallback) are
  folded into this module.
- **`util.MultiLine`** (`Lines`), together with the Go string functions the
  strategies rely on (`Strings`). `TrimSpace` uses Go's `unicode.IsSpace`
  set.
- **The SDK-level table** `util/android_version.go` (`AndroidVersion`).
- **The eight app strategies** (`AppStrategy`):
  - the requested-permissions scan of Grant;
  - the `granted=true` scan of Revoke;
  - the list, path and pull stages of Export;
  - the single-command strategies.
- **The parsing inside `DeviceInfoImpl.Run`** (`InfoStrategy`): codename
  suppression, display resolution, IP address, the two density formats and
  the SDK-to-name fallback. It also covers the nine queries that feed it.
- **The four log strategies** (`LogStrategy`): their `CanHandle` predicates
  and their early returns on error.
- **The table from rotation variant to settings key and value**
  (`RotationStrategy`).
- **`runAdbCommand` and its helpers** in `cmd/adb.go` (`Dispatch`):
  extracting the foreground package, the ordered multi-dispatch over the log
  and app strategies, and the keyword tables of the action, info, screen and
  rotation handlers.

Operations that loop or update state are `method`s on the `Host` object.
Each is proved against a pure function (`RunUntilExit`, `SectionEntries`,
`RevokeTargets`, `PullEffect`, `AppEffect`, `LogEffect`, `DisplayOf`,
`DensityOf`, `InfoOf`, `CurrentLookup`, `LogGroup`, `AppGroup`,
`ApplicableLogs`, `ApplicableApps`). Lemmas prove what the source promises
about those functions.

Two behaviours of the code are easy to misread, and the model keeps both:

- The Grant scan closes its section whenever a line lacks `.permission.`,
  and that includes the header line itself. A header line still opens the
  section, because the header test comes after the close
  (`strategy/app_strategy.go:103-109`).
- The grant loop ignores errors, but its `exitWhen` predicate fires on the
  `GRANT_RUNTIME_PERMISSIONS` denial text. A grant whose stderr holds that
  text therefore exits the process, and no later command runs
  (`strategy/app_strategy.go:87-89`, `util/exec.go:28-38`).

Each strategy's whole effect is also written as one value: `AppEffect`,
`PullEffect` and `LogEffect` give the commands issued, whether the process
exits, the files on disk and the error for a given run of replies. The
loops of `executeLogCommands` and `executeAppCommands` are the functions
`LogGroup` and `AppGroup`. They chain these effects, each run starting at
the reply after the previous run's last command.

What `runAdbCommand` does after its lookup is the predicate `HandlersRan`.
It is stated over `HostState` values, each holding a host's issued
commands, reports, exit flag and files. `GroupsRan` covers the log and app
groups. `KeywordsRan` then covers the four keyword handlers, with one state
before each handler and one at the end. `ActionRan`, `InfoRan`, `ScreenRan`
and `RotationRan` give each handler's step.

## Model

| member | source | states |
|---|---|---|
| ExecPolicy.Decide | util/exec.go:24-45 | Non-empty stdout is returned as text. With empty stdout the outcome is fatal exactly when stderr is non-empty and either errors are not ignored or the predicate fires on stderr. It is an error exactly when stdout and stderr are both empty, the command failed and errors are not ignored. Any returned text is stdout when that is non-empty, else stderr. |
| ExecPolicy.StdoutWins | util/exec.go:24-26 | Non-empty stdout is returned as is, whatever stderr, the failure flag or the options say. |
| ExecPolicy.StderrIsFatal | util/exec.go:28-38 | With errors not ignored, empty stdout and non-empty stderr make the process exit, whatever the predicate. |
| ExecPolicy.FiringPredicateIsFatal | util/exec.go:29-38 | A predicate that fires on stderr leads to the exit. |
| ExecPolicy.NilPredicateNeverFires | util/exec.go:29-33 | An absent predicate gives the same outcome as a predicate that is always false. |
| ExecPolicy.SilentFailureIsError | util/exec.go:41-43 | A failed command with empty stdout and stderr is an error when errors are not ignored and no predicate is given. |
| ExecPolicy.IgnoredNeverErrs | util/exec.go:28-45 | With ignoreError set the outcome is never an error. It is fatal exactly when stdout is empty and the predicate fires on a non-empty stderr. |
| ExecPolicy.IgnoredWithoutPredicateReturns | util/exec.go:28-45 | With ignoreError set and no predicate, the caller always gets text. |
| ExecPolicy.FallthroughIsStderr | util/exec.go:45 | A returned outcome with empty stdout carries the stderr text. |
| Adb.RunUntilExit | util/exec.go:35-38 | Running a command list issues a prefix of it, and all of it unless some command exits. |
| Adb.RunUntilExitStops | util/exec.go:35-38 | When a run exits, its last command is the one that exited, and no earlier command exited; a run that does not exit met no fatal reply, the last command included. So a run exits exactly when some reply in it is fatal. |
| Adb.RunUntilExitStep | util/exec.go:35-38 | Adding one command to a run issues it exactly when the run up to it has not exited. |
| Adb.Host.constructor | util/exec.go:11-46 | A fresh host has the given oracle and files, has issued and reported nothing and has not exited. |
| Adb.Host.Exec | util/exec.go:11-46 | Issues the command and returns what Decide says about its reply; a fatal reply sets exited; an exited host issues nothing. |
| Adb.Host.Report | cmd/adb.go:118-119 | Appends one report to stderr unless the process has exited. |
| Adb.Host.Exit | cmd/adb.go:68-69 | Marks the process as exited unless it already has. |
| Adb.Host.CreateFile | strategy/app_strategy.go:288-292 | A successful pull puts the destination file on disk. |
| Adb.RunAll | strategy/app_strategy.go:85-90 | Issuing a command list one by one leaves the host exactly as RunUntilExit says. |
| Adb.ExecNext | strategy/app_strategy.go:86-90 | One more command, issued after a run that matches RunUntilExit, leaves a run that matches RunUntilExit of the longer list; an exited host does not change. |
| Adb.RunCommand | strategy/app_strategy.go:31-35 | A one-command strategy issues its command and returns Exec's error. |
| Adb.ActivityList | adb/adb_util.go:22-24 | Issues the activity listing and returns its text, or the error. |
| Adb.CurrentLookup | adb/adb_util.go:8-20 | A failed or blank first lookup issues the fallback, and its failure is the error. Otherwise only the first lookup is issued. Either exits when the issued query is fatal. The result is the text with one trailing "}\n" removed. |
| Adb.CurrentPackageAndActivity | adb/adb_util.go:8-20 | Issues the commands CurrentLookup lists and returns its result or error. |
| Strings.IndexOf | strategy/info_strategy.go:46 | It returns -1 exactly when the substring is absent. Otherwise it returns the first position where the substring occurs. |
| Strings.BeforeFirstOccurrence | strategy/info_strategy.go:46-47 | The text before the first occurrence does not contain the substring. |
| Strings.IndexOfChar | strategy/info_strategy.go:66-68 | The first index of a character is where that character occurs. The character does not occur anywhere before that index. |
| Strings.ToUpperMatches | strategy/info_strategy.go:34-38 | Against a word that is already upper case, upper-casing a text gives that word exactly when the text equals it ignoring ASCII case. |
| Strings.TrimSpace | strategy/info_strategy.go:28-33 | The result occurs inside the input, uses only its characters, and neither begins nor ends with white space. |
| Strings.TrimSpaceSlice | strategy/info_strategy.go:28-33 | The result is a slice of the input with only white space before and after it, so only white space is removed. |
| Strings.Split | strategy/app_strategy.go:141-143 | Splitting yields at least one piece. |
| Strings.SplitNoSeparator | strategy/app_strategy.go:141-143 | No piece contains the separator. |
| Strings.SplitJoin | util/string.go:9 | Joining the pieces with the separator gives back the input. |
| Strings.SplitCount | util/string.go:9 | There is one more piece than separators. |
| Strings.SplitFirst | cmd/adb.go:72-78 | The first piece is a prefix without the separator, and a separator follows it unless it is the whole input. |
| Lines.MultiLine | util/string.go:8-10 | Splitting always yields at least one line. |
| Lines.MultiLineEmpty | util/string.go:8-10 | Empty output is one empty line. |
| Lines.MultiLineNoNewline | util/string.go:8-10 | No line contains a newline. |
| Lines.MultiLineJoin | util/string.go:8-10 | Joining the lines with '\n' gives the CRLF-normalised text. |
| Lines.MultiLineCount | util/string.go:8-10 | The number of lines is the number of '\n' in the normalised text plus one. |
| Lines.ReplaceCRLFIdentity | util/string.go:9 | Normalising text without "\r\n" leaves it unchanged. |
| Lines.MultiLineJoinNoCRLF | util/string.go:8-10 | For text without a "\r\n" pair (a lone CR is allowed), joining the lines gives back the original text. |
| Lines.LoneCRPreserved | util/string.go:9 | A lone '\r' is kept, not treated as a line break. |
| Lines.ReplaceCRLFPair | util/string.go:9 | A CR LF pair becomes a single LF. |
| Lines.ReplaceCRLFKeeps | util/string.go:9 | A character that does not open a CR LF pair is kept as it is. |
| Lines.ReplaceCRLFCount | util/string.go:9 | Normalising never lengthens the text and keeps the number of '\n'. |
| AndroidVersion.GetVersionBuild | util/android_version.go:32-37 | It answers "" exactly when the key is not in the table. Otherwise it answers the table's entry. |
| AndroidVersion.Api34 | util/android_version.go:27 | Level "34" names "Android 14.0, U, API 34". |
| AndroidVersion.TableKeys | util/android_version.go:3-30 | Of the two-digit levels 10 to 36, every one except 20 is in the table. Level "20" answers "". |
| AndroidVersion.KeyIsListed | util/android_version.go:32-37 | Every key of the table is one of the listed levels "10" to "36". |
| AndroidVersion.EntriesNameLevels10To12 | util/android_version.go:4-6 | The entries for levels 10, 11 and 12 each end with ", API " followed by their own key. |
| AndroidVersion.EntriesNameLevels13To15 | util/android_version.go:7-9 | The entries for levels 13, 14 and 15 each end with ", API " followed by their own key. |
| AndroidVersion.EntriesNameLevels16To18 | util/android_version.go:10-12 | The entries for levels 16, 17 and 18 each end with ", API " followed by their own key. |
| AndroidVersion.EntriesNameLevels19To22 | util/android_version.go:13-15 | The entries for levels 19, 21 and 22 each end with ", API " followed by their own key. |
| AndroidVersion.EntriesNameLevels23To25 | util/android_version.go:16-18 | The entries for levels 23, 24 and 25 each end with ", API " followed by their own key. |
| AndroidVersion.EntriesNameLevels26To28 | util/android_version.go:19-21 | The entries for levels 26, 27 and 28 each end with ", API " followed by their own key. |
| AndroidVersion.EntriesNameLevels29To32 | util/android_version.go:22-25 | The entries for levels 29 to 32 each end with ", API " followed by their own key. |
| AndroidVersion.EntriesNameLevels33To36 | util/android_version.go:26-29 | The entries for levels 33 to 36 each end with ", API " followed by their own key. |
| AppStrategy.NewStrategy | strategy/app_strategy.go:23-39 | A strategy keeps its package name and can handle exactly when that name is non-empty. |
| AppStrategy.PermissionName | strategy/app_strategy.go:111 | The extracted name has no ':' and no surrounding white space. |
| AppStrategy.SectionOpenStep | strategy/app_strategy.go:103-109 | After a line, the section is open exactly when that line is a header, or the section was open and the line holds ".permission.". |
| AppStrategy.GetRequestedPermissions | strategy/app_strategy.go:98-116 | The loop's result is SectionEntries of the lines. |
| AppStrategy.NoHeaderNoEntries | strategy/app_strategy.go:100-110 | Without a "requested permissions:" line, no permission is found. |
| AppStrategy.EntriesComeFromSectionLines | strategy/app_strategy.go:103-113 | Each entry is the name of some line that lies inside an open section. |
| AppStrategy.EntriesAreClean | strategy/app_strategy.go:111-112 | No entry contains ':' or surrounding white space. |
| AppStrategy.HeaderThenPermissions | strategy/app_strategy.go:102-113 | A header followed by permission lines yields exactly their names, in order. |
| AppStrategy.RevokeNameBeforeColon | strategy/app_strategy.go:141-143 | The revoked name is the trimmed text before the first ':'. |
| AppStrategy.RevokeTargetsCount | strategy/app_strategy.go:139-147 | There is one target per line that holds both "permission" and "granted=true". |
| AppStrategy.RevokeTargetsStep | strategy/app_strategy.go:139-147 | One more line adds its revoke target exactly when it holds both "permission" and "granted=true". |
| AppStrategy.RevokeTargetsHaveNoColon | strategy/app_strategy.go:141-143 | No revoke target contains ':'. |
| AppStrategy.AppEffect | strategy/app_strategy.go:31-296 | Each strategy issues its kind's first command first. A run that returns an error did not exit. Only Export changes the files, and then only by adding its destination. |
| AppStrategy.RunClearData | strategy/app_strategy.go:31-35 | Issues one clear command and returns its error. The run is AppEffect of ClearData. |
| AppStrategy.RunKill | strategy/app_strategy.go:54-58 | Issues one force-stop command and returns its error. The run is AppEffect of Kill. |
| AppStrategy.RunStart | strategy/app_strategy.go:169-173 | Issues one start command and returns its error. The run is AppEffect of Start. |
| AppStrategy.RunDetail | strategy/app_strategy.go:219-223 | Issues one details-screen command and returns its error. The run is AppEffect of Detail. |
| AppStrategy.RunRestart | strategy/app_strategy.go:192-200 | Stops the package. If that fails it returns the error and issues nothing more. Otherwise it starts the package and returns that error. The run is AppEffect of Restart. |
| AppStrategy.RunGrant | strategy/app_strategy.go:77-92 | A failed dump is returned as the error, and a fatal one exits. Otherwise one grant is issued per requested permission, in order, with errors ignored. A grant whose stderr holds the GRANT_RUNTIME_PERMISSIONS denial text exits the process, and no later grant is issued. It returns nil. The run is AppEffect of Grant. |
| AppStrategy.RevokeAll | strategy/app_strategy.go:138-148 | Issues one ignored revoke per target, in order, until something exits. |
| AppStrategy.RunRevoke | strategy/app_strategy.go:131-150 | A failed dump is returned as the error. Otherwise it returns nil after revoking every target of the dump. The run is AppEffect of Revoke. |
| AppStrategy.FindPackage | strategy/app_strategy.go:250-257 | Finds the package exactly when some listed line contains its name. |
| AppStrategy.ApkPath | strategy/app_strategy.go:271 | The path is the trimmed reply with one "package:" prefix removed. It is empty exactly when the trimmed reply is empty or is just that prefix. |
| AppStrategy.PullEffect | strategy/app_strategy.go:264-296 | The path query comes first, and at most one pull follows. No pull is issued over an existing destination. The destination is added only by a pull that neither fails nor exits. The error is ApkPathNotFound exactly when the path query is fatal or names no path. For a fatal query the process has already exited, so that value is a placeholder; AppEffect drops the error of every run that exits. |
| AppStrategy.PullFrom | strategy/app_strategy.go:271-296 | After the path query printed its text, at most one pull is issued, none over an existing destination. The destination is added only by a pull that neither fails nor exits. The error is ApkPathNotFound exactly when the text names no path. |
| AppStrategy.PullStage | strategy/app_strategy.go:271-296 | On a live host it issues, exits, changes the files and returns the error exactly as PullFrom says for the path text. |
| AppStrategy.PullApk | strategy/app_strategy.go:264-296 | On a live host it does exactly what PullEffect says, including the placeholder error of a fatal path query. A failed path query is returned, and an empty path gives ApkPathNotFound. An existing destination means no pull and nil. Otherwise it pulls and returns the pull's error, and a successful pull creates the file. |
| AppStrategy.PullOnce | strategy/app_strategy.go:288-296 | Issues the pull and returns its error. It adds the destination file exactly when the pull returned text. |
| AppStrategy.PullIfListed | strategy/app_strategy.go:250-266 | An unlisted package changes nothing and returns nil. A listed one does exactly what PullEffect says. |
| AppStrategy.RunExport | strategy/app_strategy.go:242-296 | A failed listing is returned as the error, and a fatal one exits. An unlisted package returns nil with nothing more issued. For a listed package, the commands, exit, files and error that follow the listing are exactly PullEffect's, on the next replies. The run is AppEffect of Export. |
| AppStrategy.RunApp | strategy/app_strategy.go:11-16 | On a live host the commands issued, the exit and the files are AppEffect of the strategy's kind, starting with FirstCommand of that kind. So is the error of a run that does not exit. An exited host does not change. |
| InfoStrategy.CodeName | strategy/info_strategy.go:34-38 | The codename is empty exactly when the trimmed read-back equals "REL" ignoring ASCII case; otherwise it is the upper-cased read-back. |
| InfoStrategy.CutAtRng | strategy/info_strategy.go:45-48 | If the trimmed line contains "rng", the result is the text before its first occurrence and holds no "rng". Otherwise the result is the whole trimmed line. |
| InfoStrategy.DisplayOfFirst | strategy/info_strategy.go:41-51 | The resolution comes from the first line containing "init=". |
| InfoStrategy.DisplayOfNone | strategy/info_strategy.go:41-51 | Without an "init=" line, the resolution is empty. |
| InfoStrategy.ParseDisplay | strategy/info_strategy.go:41-51 | The loop's result is DisplayOf of the lines. |
| InfoStrategy.IpField | strategy/info_strategy.go:54-58 | The field is empty exactly when the reply mentions "Permission denied". Otherwise it is "ipAddress: " followed by the trimmed reply with its newlines removed, and it contains no newline. |
| InfoStrategy.AfterColon | strategy/info_strategy.go:66-68 | No ':' means no value; otherwise the value is trimmed. |
| InfoStrategy.AfterFirstColon | strategy/info_strategy.go:66-68 | The value is the trimmed text after the first ':'. |
| InfoStrategy.ColonIndex | strategy/info_strategy.go:66 | It is -1 exactly when there is no ':'. Otherwise it is the position of the first ':'. |
| InfoStrategy.TrimmedAfterColon | strategy/info_strategy.go:66-68 | The method computes AfterColon. |
| InfoStrategy.DensityWithoutOverride | strategy/info_strategy.go:65-72 | A plain reply gives the physical value after the colon, no override and that value as the scale text. |
| InfoStrategy.DensityWithOverride | strategy/info_strategy.go:73-89 | An override reply gives the physical value from the first line. It gives "Override density: …dpi" and the scale text from the second line. |
| InfoStrategy.ParseDensity | strategy/info_strategy.go:60-90 | The method's result is DensityOf of the reply. |
| InfoStrategy.ParsePlainDensity | strategy/info_strategy.go:65-72 | The method computes PlainDensity. |
| InfoStrategy.ParseOverriddenDensity | strategy/info_strategy.go:74-89 | The method computes OverriddenDensity of the two lines. |
| InfoStrategy.DensityTrimmed | strategy/info_strategy.go:65-89 | The physical density and the scale text have no white space at either end. |
| InfoStrategy.VersionLabel | strategy/info_strategy.go:92-95 | A known SDK level gives the table's name. An unknown level gives "Android " followed by the release. |
| InfoStrategy.InfoTexts | strategy/info_strategy.go:18-26 | There are nine texts, one per query, in order, and an error reads as empty text. |
| InfoStrategy.Query | strategy/info_strategy.go:18-26 | Issues one query; a failure reads as empty text. |
| InfoStrategy.QueryAll | strategy/info_strategy.go:18-26 | Issues the nine queries in order, and only the IP query ignores errors. When nothing exits, the texts are InfoTexts. |
| InfoStrategy.Summarize | strategy/info_strategy.go:28-95 | The report's fields are InfoOf of the nine texts. |
| InfoStrategy.RunDeviceInfo | strategy/info_strategy.go:17-119 | Never returns an error; issues a prefix of the queries. When none exits, it issues all nine, and the report is InfoOf of their texts. |
| InfoStrategy.RunDump | strategy/info_strategy.go:123-152 | A CPU, memory or battery dump issues its command and passes on its text or error. |
| LogStrategy.CanHandleIsItsFlag | strategy/log_strategy.go:17-65 | Each log strategy handles exactly when its own option is set. The package name is not consulted. |
| LogStrategy.RunCurrentActivity | strategy/log_strategy.go:21-28 | Issues the lookup. A failed lookup returns its error; otherwise the lookup's result is printed. |
| LogStrategy.RunAllActivity | strategy/log_strategy.go:36-43 | Prints the activity list, or returns its error. |
| LogStrategy.RunAllFragment | strategy/log_strategy.go:51-59 | Issues the fragment dump for the package; prints its text or returns its error. |
| LogStrategy.RunSpecificPackageActivity | strategy/log_strategy.go:67-80 | A failed list returns its error with nothing further issued; otherwise prints the package's activities. |
| LogStrategy.LogEffect | strategy/log_strategy.go:21-80 | Each log strategy issues one or two queries, its kind's first query first. An error is the failure of the last query, from a run that did not exit. A run exits only on a fatal reply to its last query. |
| LogStrategy.RunLog | strategy/log_strategy.go:10-80 | Something is printed exactly when no error is returned. On a live host the commands, exit and error are exactly LogEffect's for the kind. |
| RotationStrategy.SettingTable | strategy/rotation_strategy.go:13-51 | Enable and Disable write accelerometer_rotation 1 and 0. No other variant writes that key. The others write user_rotation with a value of at most 3. |
| RotationStrategy.SettingInjective | strategy/rotation_strategy.go:13-51 | Different variants write different settings. |
| RotationStrategy.RunRotation | strategy/rotation_strategy.go:13-51 | Issues the variant's one settings command and returns its error. |
| Dispatch.ForegroundPackage | cmd/adb.go:72-78 | The package is a prefix of the lookup result with no '/'. The result either ends there or continues with '/' or '}'. |
| Dispatch.ForegroundPackageOf | cmd/adb.go:72-78 | Both "pkg/activity" and "pkg}/activity" give the package "pkg". |
| Dispatch.FirstPiece | cmd/adb.go:72 | The first piece of a + "/" + b is a when a has no '/'. |
| Dispatch.ForegroundPackageNoSlash | cmd/adb.go:72-78 | A result without '/' gives the whole result, less one trailing '}'. |
| Dispatch.ForegroundPackageSlash | cmd/adb.go:72-78 | A result with a '/' gives the text before its first '/', less one trailing '}'. |
| Dispatch.ActionIntents | cmd/adb.go:146-154 | Each of the seven action keywords opens its settings screen. |
| Dispatch.ActionKeywordIsListed | cmd/adb.go:146-156 | No other keyword is an action. |
| Dispatch.SelectInfo | cmd/adb.go:168-180 | Exactly "device", "cpu", "memory" and "battery" select an info strategy. |
| Dispatch.SelectScreen | cmd/adb.go:190-198 | Exactly "png" and "mp4" select a screen strategy. |
| Dispatch.SelectRotation | cmd/adb.go:208-224 | Exactly "enable", "disable" and "0" to "3" select a rotation. |
| Dispatch.RotationDigits | cmd/adb.go:208-224 | Keyword "d" writes user_rotation d, and enable and disable write the accelerometer setting. |
| Dispatch.ApplicableLogsMembers | cmd/adb.go:115-116 | A log strategy runs exactly when it is in the declared list and can handle. |
| Dispatch.AppStrategies | cmd/adb.go:125-134 | There are eight strategies, in the order clear, kill, grant, revoke, start, restart, detail, export. The package name at each position is that strategy's own option. |
| Dispatch.ApplicableAppsMembers | cmd/adb.go:136-137 | An app strategy runs exactly when it is in the list and can handle. |
| Dispatch.ApplicableAppsAppend | cmd/adb.go:136-137 | Filtering two lists one after the other gives the filtered lists one after the other, so declaration order is kept. |
| Dispatch.OnlyOneApplies | cmd/adb.go:136-142 | With exactly one option set, exactly that strategy runs. |
| Dispatch.NoneApplies | cmd/adb.go:136-137 | With no option set, no strategy runs. |
| Dispatch.ExactlyOneAppFlag | cmd/adb.go:125-142 | Setting only one app option runs only that option's strategy, with that option's package. |
| Dispatch.NoLogApplies | cmd/adb.go:115-116 | With no log option set, no log strategy runs. |
| Dispatch.LogGroupRunsApplicable | cmd/adb.go:107-122 | A failing log strategy does not stop the loop. The strategies run are a prefix of ApplicableLogs, all of it unless one exits. Each run issues a command and reports at most one error, as StrategyFailed. |
| Dispatch.RunLogAndReport | cmd/adb.go:115-120 | On a live host it does exactly LogEffect of the strategy and reports that run's error as StrategyFailed, and nothing else. |
| Dispatch.ExecuteLogCommands | cmd/adb.go:107-122 | The loop hands exactly ApplicableLogs of the declared order to Run. On a live host the commands, the exit and the reports are exactly LogGroup's. Each applicable strategy runs its LogEffect on the replies after the previous run's, with its error reported and nothing issued between runs. Only an exit stops the loop. With none applicable nothing changes. |
| Dispatch.EffectsIssueCommands | strategy/app_strategy.go:31-296 | Every run of an app strategy issues at least one command. |
| Dispatch.AppGroupRunsApplicable | cmd/adb.go:124-143 | A failing app strategy does not stop the loop. The strategies run are a prefix of ApplicableApps, all of it unless one exits. For strategies that each issue a command, each run issues one and reports at most one error, as StrategyFailed. |
| Dispatch.AppGroupOnlyOne | cmd/adb.go:136-142 | When exactly one strategy applies, the loop's run is that strategy's run on the first replies, with its error reported. |
| Dispatch.AppGroupNone | cmd/adb.go:136-137 | When no strategy applies, the loop does nothing. |
| Dispatch.ExecuteAppCommands | cmd/adb.go:124-143 | The loop hands exactly ApplicableApps of the eight strategies to Run. On a live host the commands, exit, files and reports are exactly AppGroup's. Each applicable strategy runs its AppEffect with its own package name, on the replies after the previous run's. Its error is reported and nothing is issued between runs. Only an exit stops the loop. With none applicable nothing changes. |
| Dispatch.RunAppGroup | cmd/adb.go:136-142 | Over any list of app strategies, the loop hands exactly ApplicableApps of it to Run. On a live host the commands, exit, files and reports are exactly AppGroup's for that list. With none applicable nothing changes. |
| Dispatch.RunAndReport | cmd/adb.go:137-140 | On a live host it does exactly AppEffect of the strategy with its own package name. It reports that run's error as StrategyFailed when there is one, and nothing else. |
| Dispatch.ExecuteAction | cmd/adb.go:145-163 | An unknown keyword does nothing. A known keyword starts its intent, and a failure reports and exits. |
| Dispatch.ReportDump | cmd/adb.go:182-184 | A failed dump is reported; a successful one is not. |
| Dispatch.ReportDeviceInfo | cmd/adb.go:182-184 | Device info never reports an error. |
| Dispatch.ExecuteInfo | cmd/adb.go:165-185 | An unknown keyword reports UnknownInfo and issues nothing; a known one runs its strategy. |
| Dispatch.ExecuteScreen | cmd/adb.go:187-203 | An unknown keyword reports UnknownScreen and issues nothing; a known one issues its command and reports a failure. |
| Dispatch.ExecuteRotation | cmd/adb.go:205-229 | An unknown keyword reports UnknownRotation and issues nothing. A known one writes its setting and reports a failure. |
| Dispatch.RunGroups | cmd/adb.go:80-84 | The host goes from its old state to exactly what GroupsRan says. The log group runs first, on the next replies. The app group then runs on the replies after the log group's commands, and its reports follow the log group's. An exit in the log group leaves the app group out, and an exited host changes nothing. When neither group has a strategy that applies, nothing changes. |
| Dispatch.LogThenApps | cmd/adb.go:80-84 | The same as RunGroups, for any list of app strategies. |
| Dispatch.GroupsCompose | cmd/adb.go:80-84 | The log group's run followed, unless it exited, by the app group's run on the replies after it is exactly GroupsRan. |
| Dispatch.ActionCommands | cmd/adb.go:145-163 | An action issues at most one command, and one exactly for the seven known keywords. |
| Dispatch.InfoKeywordCommands | cmd/adb.go:165-185 | An info keyword issues commands exactly when it selects a strategy, and one command unless it is "device". |
| Dispatch.ScreenKeywordCommands | cmd/adb.go:187-203 | A screen keyword issues at most one command, and one exactly for "png" and "mp4". |
| Dispatch.RotationKeywordCommands | cmd/adb.go:205-229 | A rotation keyword issues at most one command, and one exactly for "enable", "disable" and "0" to "3". |
| Dispatch.ActionIfAsked | cmd/adb.go:87-89 | Only commands and reports are added (ActionRan). An empty action, an unknown one, or an exited host adds nothing and leaves the exit flag alone. A known action issues its one intent. A failure of it reports ActionFailed, and the process lives exactly when the intent succeeds. |
| Dispatch.InfoIfAsked | cmd/adb.go:92-94 | Only commands and reports are added (InfoRan). An empty keyword, or an exited host, adds nothing. An unknown keyword reports UnknownInfo and keeps the process alive. "device" adds a prefix of its queries and no report. The other keywords issue their dump; an error reports StrategyFailed, and only a fatal one exits. |
| Dispatch.ScreenIfAsked | cmd/adb.go:97-99 | Only commands and reports are added (ScreenRan). An empty keyword, or an exited host, adds nothing. An unknown keyword reports UnknownScreen and keeps the process alive. A known one issues its command; an error reports StrategyFailed, and only a fatal one exits. |
| Dispatch.RotationIfAsked | cmd/adb.go:102-104 | Only commands and reports are added (RotationRan). An empty keyword, or an exited host, adds nothing. An unknown keyword reports UnknownRotation and keeps the process alive. A known one writes its setting; an error reports StrategyFailed, and only a fatal one exits. |
| Dispatch.RunKeywordHandlers | cmd/adb.go:86-104 | The returned states run from the old host to the new one, and KeywordsRan holds of them. The handlers run in the order action, info, screen, rotation, and handler i takes the host from states[i] to states[i + 1]. Each handler takes the replies after the earlier handlers' commands and does what its IfAsked method states. An exited host, or no keyword option, changes nothing. |
| Dispatch.KeywordsCompose | cmd/adb.go:86-104 | Four handler runs, one after the other, make up KeywordsRan. |
| Dispatch.KeywordsRanSkipped | cmd/adb.go:86-104 | When the host had exited, or no keyword option is set, the handlers leave the host as it was. |
| Dispatch.KeywordsRanAdds | cmd/adb.go:86-104 | The handlers' commands and reports, concatenated in order, are all that is added, and no file changes. |
| Dispatch.KeywordsRanLive | cmd/adb.go:86-104 | Once a handler exits the process (cmd/adb.go:159-161 for executeAction), the host stays exited, and every later handler issues and reports nothing. |
| Dispatch.KeywordsRanLiveIssues | cmd/adb.go:86-104 | A run that ends with the process alive, and no "device" info, issued ActionCommands, InfoKeywordCommands, ScreenKeywordCommands and RotationKeywordCommands, in that order. |
| Dispatch.ActionRanLive | cmd/adb.go:145-163 | An action handler after which the process lives issued its keyword's commands. |
| Dispatch.InfoRanLive | cmd/adb.go:165-185 | An info handler other than "device" after which the process lives issued its keyword's commands. |
| Dispatch.ScreenRanLive | cmd/adb.go:187-203 | A screen handler after which the process lives issued its keyword's commands. |
| Dispatch.RotationRanLive | cmd/adb.go:205-229 | A rotation handler after which the process lives issued its keyword's commands. |
| Dispatch.NothingAskedRunsNothing | cmd/adb.go:80-104 | With no option set, no log strategy and no app strategy applies. |
| Dispatch.RunHandlers | cmd/adb.go:80-104 | HandlersRan holds from the old host to the last returned state, which is the new host. The log and app groups run for the given package as GroupsRan says and leave the host in states[0]. The keyword handlers then run from there as KeywordsRan says. When nothing is asked, or the process has already exited, nothing changes. |
| Dispatch.RunAdbCommand | cmd/adb.go:65-105 | A failed lookup reports CurrentActivityFailed and exits. Nothing else is issued once the lookup exits. A successful lookup is followed by exactly what RunHandlers states, from the host after the lookup's commands, for the package ForegroundPackage of the lookup's text. When nothing is asked, only the lookup's commands are issued. |

## Left out

- Process spawning, buffering and the shell (`util/exec.go:12-22`): a command's reply comes from the host's oracle, indexed by the command's position.
- The stderr print before `os.Exit`, and `util.Log` output in general. A strategy's printed text is returned as a value instead. The layout of the device-info report (its `Sprintf` at `strategy/info_strategy.go:97-115`) is not rendered; its fields are.
- Command strings, their quoting, and the grep/awk pipelines in `adb/adb_util.go`: each is a `Command` constructor, and its reply is opaque text.
- `filepath.Abs` and `os.Stat`: the destination is `./<pkg>.apk`, and "exists" is membership in the host's file set. An `Abs` failure cannot happen in the model.
- The density scale is a float division by 160. Only the text handed to `ParseFloat` is kept (`scaleText`).
- Screen capture names its file with a date/time string and waits for recording. `strategy/screen_strategy.go` is not part of this model beyond the one command each keyword issues.
- CPU, memory and battery info are modelled as one pass-through dump each.
- Cobra flag registration: the options arrive as a `Flags` value.
- `strings.ToUpper` and `strings.EqualFold` are modelled on ASCII letters only. Other Unicode case mappings are left out.
- The `len(parts) == 0` branch of `runAdbCommand` cannot be reached, because `strings.Split` always yields at least one piece (`Strings.Split`).
- Export's membership test is a substring test, as in the source. A listed package whose name merely contains the requested one counts as present; the later path query then decides.
- AppStrategy.RunApp: the error of a run that exits the process is not stated, because the process ends before anyone sees it. The same holds for AppEffect, RunAndReport and the group loops, where such a run reports nothing.
- LogStrategy.RunLog: the printed text is stated only by the per-kind methods, since LogEffect describes the host's side of a run.
- InfoStrategy.RunDeviceInfo: the report and the exact commands are stated only when no query exits. Otherwise it states only that a prefix of the queries was issued.
- Dispatch.ExecuteInfo: for "device" it states only that a prefix of the nine queries is issued and that nothing is reported.
- Dispatch.RunKeywordHandlers: for "device" info it states only that a prefix of the nine queries is issued and that nothing is reported, as ExecuteInfo does. The same holds for InfoIfAsked and HandlersRan.
