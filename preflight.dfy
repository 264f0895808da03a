/**
 * The three checks run before anything is shown: `check_git_login`,
 * `check_git_repository` and `check_remote_repository`. Each either lets
 * the script continue or ends it with `exit(1)`.
 */
module Preflight {
  import opened Text
  import opened Executor

  datatype Verdict = Continue | Exit(code: int)

  /** `check_git_login`: both the user name and the email must be set and
      non-empty; the error halves of the two outcomes are ignored. */
  function LoginVerdict(name: Outcome, email: Outcome): (v: Verdict)
    ensures v == Continue <==> Truthy(name.value) && Truthy(email.value)
    ensures v != Continue ==> v == Exit(1)
  {
    if !Truthy(name.value) || !Truthy(email.value) then Exit(1) else Continue
  }

  /** `check_git_repository`: only a non-empty error string stops the script;
      the value half is ignored. */
  function RepositoryVerdict(probe: Outcome): (v: Verdict)
    ensures v == Continue <==> !Truthy(probe.error)
    ensures v != Continue ==> v == Exit(1)
  {
    if Truthy(probe.error) then Exit(1) else Continue
  }

  /** `check_remote_repository`: the listing of remotes must be non-empty. */
  function RemoteVerdict(remotes: Outcome): (v: Verdict)
    ensures v == Continue <==> Truthy(remotes.value)
    ensures v != Continue ==> v == Exit(1)
  {
    if !Truthy(remotes.value) then Exit(1) else Continue
  }

  /** In terms of the tool's raw answers: login passes exactly when both
      config commands succeed with output that is not all whitespace. */
  lemma LoginOnResults(name: ExecResult, email: ExecResult)
    ensures LoginVerdict(RunCommand(name), RunCommand(email)) == Continue
      <==> name.exitCode == 0 && email.exitCode == 0
           && !AllSpace(name.stdout) && !AllSpace(email.stdout)
  {
    ValueTruthy(name);
    ValueTruthy(email);
  }

  /** The repository check fails only on a failure with a non-blank stderr:
      a failing `git rev-parse` that prints nothing to stderr passes. */
  lemma RepositoryOnResult(probe: ExecResult)
    ensures RepositoryVerdict(RunCommand(probe)) == Exit(1)
      <==> probe.exitCode != 0 && !AllSpace(probe.stderr)
  {
    ErrorTruthy(probe);
  }

  /** The remote check passes exactly when `git remote -v` succeeds with
      output that is not all whitespace. */
  lemma RemoteOnResult(remotes: ExecResult)
    ensures RemoteVerdict(RunCommand(remotes)) == Continue
      <==> remotes.exitCode == 0 && !AllSpace(remotes.stdout)
  {
    ValueTruthy(remotes);
  }
}
