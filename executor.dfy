/**
 * `run_command`: the one place the script talks to git. The process itself
 * is not modelled; a `Script` fixes in advance what the tool answers to the
 * k-th command issued, and every operation that issues commands appends
 * them to a log.
 */
module Executor {
  import opened Wrappers
  import opened Text

  /** What `subprocess.run(..., capture_output=True, text=True)` captures. */
  datatype ExecResult = ExecResult(exitCode: int, stdout: string, stderr: string)

  /** The `(value, error)` pair that `run_command` returns. */
  datatype Outcome = Outcome(value: Option<string>, error: Option<string>)

  /** The git command lines the script issues. */
  datatype Command =
    | ShowVersion              // git --version
    | ShortStatus              // git status --short --branch
    | LongStatus               // git status
    | ConfigUserName           // git config user.name
    | ConfigUserEmail          // git config user.email
    | InsideWorkTree           // git rev-parse --is-inside-work-tree
    | ListRemotes              // git remote -v
    | StagedNames              // git diff --cached --name-only
    | AddAll                   // git add -A
    | AddDot                   // git add .
    | Commit(message: string)  // git commit -m "<message>"
    | Push                     // git push
    | LastCommitStat           // git log -1 --stat

  /** The tool's answer to the k-th command issued in a run. */
  type Script = nat -> ExecResult

  /** Python truthiness of a `str` or `None`. */
  predicate Truthy(s: Option<string>) {
    s.Some? && s.value != []
  }

  /** `run_command`: a non-zero exit gives `(None, stderr.strip())`, a zero
      exit gives `(stdout.strip(), None)`. */
  function RunCommand(r: ExecResult): Outcome {
    if r.exitCode != 0 then Outcome(None, Some(Strip(r.stderr)))
    else Outcome(Some(Strip(r.stdout)), None)
  }

  /** The answer to the k-th command issued after those already in `log`. */
  function Answer(script: Script, log: seq<Command>, k: nat): Outcome {
    RunCommand(script(|log| + k))
  }

  /** Issuing command `c` as the |log|-th command of the run. */
  method Issue(script: Script, log: seq<Command>, c: Command) returns (o: Outcome, log': seq<Command>)
    ensures o == RunCommand(script(|log|))
    ensures log' == log + [c]
  {
    o := RunCommand(script(|log|));
    log' := log + [c];
  }

  /** Exactly one half of the pair is `None`, chosen by the exit code, and
      the other half carries no surrounding whitespace. */
  lemma OutcomeShape(r: ExecResult)
    ensures RunCommand(r).value.None? != RunCommand(r).error.None?
    ensures RunCommand(r).value.None? <==> r.exitCode != 0
    ensures var o := RunCommand(r);
      var text := if o.value.Some? then o.value.value else o.error.value;
      text != [] ==> !IsSpace(text[0]) && !IsSpace(text[|text| - 1])
  {
    StripShape(r.stdout);
    StripShape(r.stderr);
  }

  /** The error half is truthy exactly for a failure whose stderr is not all
      whitespace: a failure with a blank stderr looks like success. */
  lemma ErrorTruthy(r: ExecResult)
    ensures Truthy(RunCommand(r).error) <==> r.exitCode != 0 && !AllSpace(r.stderr)
  {
    StripShape(r.stderr);
  }

  /** The value half is truthy exactly for a success whose stdout is not all
      whitespace. */
  lemma ValueTruthy(r: ExecResult)
    ensures Truthy(RunCommand(r).value) <==> r.exitCode == 0 && !AllSpace(r.stdout)
  {
    StripShape(r.stdout);
  }
}
