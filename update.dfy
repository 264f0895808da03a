/**
 * `git_update`: stage, commit, and push, in that fixed order, stopping
 * early only when the commit reports an error.
 */
module Update {
  import opened Wrappers
  import opened Text
  import opened Executor

  /** What the run reports once `git_update` returns. */
  datatype UpdateOutcome =
    | CommitFailed(error: string)
    | PushFailed(error: string)
      /** The push printed `details`; `lastCommit` is the output of
          `git log -1 --stat` when it printed something. */
    | Pushed(details: string, lastCommit: Option<string>, committedCount: nat)
      /** The push gave neither an error nor any output. */
    | PushedSilently

  /** `git add -A` when everything, deletions included, is to be uploaded;
      `git add .` otherwise. */
  function AddCommand(uploadAll: bool): (c: Command)
    ensures c == AddAll <==> uploadAll
    ensures c == AddDot <==> !uploadAll
  {
    if uploadAll then AddAll else AddDot
  }

  /** The number of files counted after the commit: the lines of
      `git diff --cached --name-only`, or 0 when it printed nothing. */
  function CommittedCount(names: Outcome): (count: nat)
    ensures count == 0 <==> !Truthy(names.value)
  {
    if Truthy(names.value) then |SplitLines(names.value.value)| else 0
  }

  /** `if commit_error:` / `if push_error:` */
  predicate Failed(o: Outcome) {
    Truthy(o.error)
  }

  /** The commands from the push on: the push, then the log only after a
      push that printed something without an error. */
  function PushTail(push: Outcome): seq<Command> {
    [Push] + (if !Failed(push) && Truthy(push.value) then [LastCommitStat] else [])
  }

  /** What `git_update` reports once the commit went through. */
  function PushEnd(push: Outcome, latest: Outcome, committedCount: nat): UpdateOutcome {
    if Failed(push) then PushFailed(push.error.value)
    else if Truthy(push.value) then
      Pushed(push.value.value, if Truthy(latest.value) then latest.value else None, committedCount)
    else PushedSilently
  }

  /** The end of `git_update`: `git push`, then `git log -1 --stat` only when
      the push printed something and reported no error. */
  method Publish(committedCount: nat, script: Script, log: seq<Command>)
      returns (outcome: UpdateOutcome, log': seq<Command>)
    ensures log' == log + PushTail(Answer(script, log, 0))
    ensures outcome == PushEnd(Answer(script, log, 0), Answer(script, log, 1), committedCount)
  {
    var push, latest;
    push, log' := Issue(script, log, Push);
    if Truthy(push.error) {
      outcome := PushFailed(push.error.value);
    } else if Truthy(push.value) {
      latest, log' := Issue(script, log', LastCommitStat);
      outcome := Pushed(push.value.value, if Truthy(latest.value) then latest.value else None, committedCount);
    } else {
      outcome := PushedSilently;
    }
  }

  /** The commands `git_update` issues, given what the commit and the push
      answer. */
  function UpdateCommands(message: string, uploadAll: bool, commit: Outcome, push: Outcome): seq<Command> {
    [AddCommand(uploadAll), Commit(message)]
    + (if Failed(commit) then [] else [StagedNames, StagedNames] + PushTail(push))
  }

  /** What `git_update` reports, given what the commit, the file count, the
      push and the log answer. */
  function UpdateEnd(commit: Outcome, names: Outcome, push: Outcome, latest: Outcome): UpdateOutcome {
    if Failed(commit) then CommitFailed(commit.error.value)
    else PushEnd(push, latest, CommittedCount(names))
  }

  /** The report and the commands agree: a failed commit is reported exactly
      when no push was issued, a successful push with details exactly when
      the log was read, and every other end of a pushed run is a push
      failure or a silent push, with the push as the last command. */
  lemma UpdateEndMatchesCommands(message: string, uploadAll: bool,
                                 commit: Outcome, names: Outcome, push: Outcome, latest: Outcome)
    ensures var cs, end := UpdateCommands(message, uploadAll, commit, push), UpdateEnd(commit, names, push, latest);
      && (end.CommitFailed? <==> Push !in cs)
      && (end.Pushed? <==> LastCommitStat in cs)
      && (end.PushFailed? || end.PushedSilently? <==> Push in cs && cs[|cs| - 1] == Push)
      && (end.Pushed? ==> (end.committedCount == 0 <==> !Truthy(names.value)))
  {
    UpdateOrdering(message, uploadAll, commit, push);
  }

  /** The add comes first and the commit second; the push is issued exactly
      when the commit reported no error, and the log is read exactly when,
      after that, the push printed something without an error, and then
      last. */
  lemma UpdateOrdering(message: string, uploadAll: bool, commit: Outcome, push: Outcome)
    ensures var cs := UpdateCommands(message, uploadAll, commit, push);
      && |cs| >= 2 && cs[0] == AddCommand(uploadAll) && cs[1] == Commit(message)
      && (Push in cs <==> !Failed(commit))
      && (LastCommitStat in cs <==> !Failed(commit) && !Failed(push) && Truthy(push.value))
      && (LastCommitStat in cs ==> cs[|cs| - 1] == LastCommitStat && cs[|cs| - 2] == Push)
      && (Push in cs && LastCommitStat !in cs ==> cs[|cs| - 1] == Push)
  {
    var cs := UpdateCommands(message, uploadAll, commit, push);
    if !Failed(commit) {
      assert cs[4] == Push;
      if !Failed(push) && Truthy(push.value) {
        assert cs[5] == LastCommitStat;
      }
    }
  }

  /** `git_update(commit_message, upload_all)`. The five answers it reads
      are, in order: add (ignored), commit, the file count, the listing of
      `check_staged_files` (display only), push; then possibly the log. */
  method GitUpdate(message: string, uploadAll: bool, script: Script, log: seq<Command>)
      returns (outcome: UpdateOutcome, log': seq<Command>)
    ensures log' == log + UpdateCommands(message, uploadAll, Answer(script, log, 1), Answer(script, log, 4))
    ensures outcome == UpdateEnd(Answer(script, log, 1), Answer(script, log, 2), Answer(script, log, 4), Answer(script, log, 5))
  {
    var add, commit, names, listing;
    add, log' := Issue(script, log, AddCommand(uploadAll));
    commit, log' := Issue(script, log', Commit(message));
    assert commit == Answer(script, log, 1);
    if Truthy(commit.error) {
      outcome := CommitFailed(commit.error.value);
      return;
    }
    names, log' := Issue(script, log', StagedNames);
    var committedCount := CommittedCount(names);
    listing, log' := Issue(script, log', StagedNames);
    assert names == Answer(script, log, 2);
    assert Answer(script, log', 0) == Answer(script, log, 4) && Answer(script, log', 1) == Answer(script, log, 5);
    outcome, log' := Publish(committedCount, script, log');
  }
}
