/**
 * util/exec.go, lines 24-45: what `Exec` does with a finished command. The
 * process run that fills stdout and stderr is not modelled; its result is a
 * `Reply`. `os.Exit(1)` is the outcome `Fatal`.
 */
module ExecPolicy {
  import opened Wrappers

  /** What a finished shell command left behind. */
  datatype Reply = Reply(stdout: string, stderr: string, failed: bool)

  /** The three ways `Exec` ends. */
  datatype Outcome =
    | Return(text: string)  // `return text, nil`
    | Err                   // `return "", err`
    | Fatal                 // the stderr text is logged and the process exits with status 1

  /** The caller's `exitWhen` predicate on stderr; a nil predicate never fires. */
  predicate Fires(exitWhen: Option<string -> bool>, stderr: string) {
    match exitWhen
    case None => false
    case Some(p) => p(stderr)
  }

  /** The decision tail of `Exec`. */
  function Decide(r: Reply, ignoreError: bool, exitWhen: Option<string -> bool>): (o: Outcome)
    ensures o.Fatal? <==> r.stdout == "" && r.stderr != "" && (Fires(exitWhen, r.stderr) || !ignoreError)
    ensures o.Err? <==> r.stdout == "" && r.stderr == "" && r.failed && !ignoreError
    ensures o.Return? ==> o.text == if r.stdout != "" then r.stdout else r.stderr
  {
    if r.stdout != "" then Return(r.stdout)
    else
      var shouldExit := r.stderr != "" && Fires(exitWhen, r.stderr);
      if r.stderr != "" && (shouldExit || !ignoreError) then Fatal
      else if r.failed && !ignoreError then Err
      else Return(r.stderr)
  }

  /** Output on stdout wins over everything else. */
  lemma StdoutWins(r: Reply, ignoreError: bool, exitWhen: Option<string -> bool>)
    requires r.stdout != ""
    ensures Decide(r, ignoreError, exitWhen) == Return(r.stdout)
  {
  }

  /** Unexpected stderr with nothing on stdout ends the process. */
  lemma StderrIsFatal(r: Reply, exitWhen: Option<string -> bool>)
    requires r.stdout == "" && r.stderr != ""
    ensures Decide(r, false, exitWhen) == Fatal
  {
  }

  /** A firing `exitWhen` forces the exit even when errors are ignored. */
  lemma FiringPredicateIsFatal(r: Reply, ignoreError: bool, p: string -> bool)
    requires r.stdout == "" && r.stderr != "" && p(r.stderr)
    ensures Decide(r, ignoreError, Some(p)) == Fatal
  {
  }

  /** A nil `exitWhen` behaves like a predicate that is always false. */
  lemma NilPredicateNeverFires(r: Reply, ignoreError: bool)
    ensures Decide(r, ignoreError, None) == Decide(r, ignoreError, Some(_ => false))
  {
  }

  /** A failed command with no output at all surfaces as an error. */
  lemma SilentFailureIsError(r: Reply)
    requires r.stdout == "" && r.stderr == "" && r.failed
    ensures Decide(r, false, None) == Err
  {
  }

  /**
   * With errors ignored there is never an error value: the result is the
   * output text, or the exit when the predicate fires.
   */
  lemma IgnoredNeverErrs(r: Reply, exitWhen: Option<string -> bool>)
    ensures Decide(r, true, exitWhen) != Err
    ensures Decide(r, true, exitWhen) == Fatal <==> r.stdout == "" && r.stderr != "" && Fires(exitWhen, r.stderr)
  {
  }

  /** With errors ignored and no predicate, `Exec` always returns its output. */
  lemma IgnoredWithoutPredicateReturns(r: Reply)
    ensures Decide(r, true, None).Return?
  {
  }

  /** The result that is neither an error nor an exit is stdout, else stderr. */
  lemma FallthroughIsStderr(r: Reply, ignoreError: bool, exitWhen: Option<string -> bool>)
    requires r.stdout == "" && Decide(r, ignoreError, exitWhen).Return?
    ensures Decide(r, ignoreError, exitWhen) == Return(r.stderr)
  {
  }
}
