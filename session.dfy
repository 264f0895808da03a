/**
 * The `__main__` block: preflight checks, the summary table, the two
 * prompts, then `check_staged_files` and `git_update`. The prompt answers
 * are parameters; printing, the banner and the update check are not
 * modelled.
 */
module Session {
  import opened Wrappers
  import opened Text
  import opened Executor
  import opened Preflight
  import opened Report
  import opened Update

  /** `upload_all`: true for the answer "2" only. */
  function UploadAll(choice: string): bool {
    choice == "2"
  }

  /** Only the answer "2" selects `git add -A`; anything else, the empty
      answer and " 2" included, selects `git add .`. */
  lemma ChoiceSelectsAdd(choice: string)
    ensures AddCommand(UploadAll(choice)) == AddAll <==> choice == "2"
    ensures AddCommand(UploadAll(choice)) == AddDot <==> choice != "2"
  {
  }

  /** Lower-casing gives "q" exactly for "q" and "Q". Python's `lower()`
      never shortens a string, so only a one-character message can lower to
      "q", and only 'q' and 'Q' do; lower-casing A-Z therefore decides this
      comparison exactly. */
  lemma LowerIsQ(message: string)
    ensures ToLower(message) == "q" <==> message == "q" || message == "Q"
  {
    if ToLower(message) == "q" {
      assert |message| == 1;
      assert ToLower(message)[0] == 'q';
    } else {
      assert ToLower("q") == "q" && ToLower("Q") == "q";
    }
  }

  /** `commit_message.lower() == 'q'`. */
  predicate IsQuit(message: string): (quit: bool)
    ensures quit <==> message == "q" || message == "Q"
  {
    LowerIsQ(message);
    ToLower(message) == "q"
  }

  /** The commands that change the repository. */
  predicate Mutating(c: Command) {
    c.AddAll? || c.AddDot? || c.Commit? || c.Push?
  }

  const PreflightCommands := [ConfigUserName, ConfigUserEmail, InsideWorkTree, ListRemotes]

  /** The read-only commands issued before the prompts, in order. */
  const ReadOnlyRun := PreflightCommands + InfoCommands

  lemma ReadOnlyRunReadsOnly()
    ensures |ReadOnlyRun| == 11
    ensures forall k :: 0 <= k < |ReadOnlyRun| ==> !Mutating(ReadOnlyRun[k])
  {
  }

  predicate LoginPasses(script: Script) {
    LoginVerdict(RunCommand(script(0)), RunCommand(script(1))) == Continue
  }

  predicate RepositoryPasses(script: Script) {
    RepositoryVerdict(RunCommand(script(2))) == Continue
  }

  predicate RemotePasses(script: Script) {
    RemoteVerdict(RunCommand(script(3))) == Continue
  }

  predicate PreflightPasses(script: Script) {
    LoginPasses(script) && RepositoryPasses(script) && RemotePasses(script)
  }

  /** `get_git_info` reaches its end: neither `git status` (the 7th command)
      nor `git remote -v` (the 11th) failed. */
  predicate ReportBuilt(script: Script) {
    RunCommand(script(6)).value.Some? && RunCommand(script(10)).value.Some?
  }

  /** How the script ends: `exit(code)`, the catch-all `except` after an
      error raised at command `at` (the process then ends normally), or
      the end of `git_update`. */
  datatype SessionEnd = Exited(code: int) | Aborted(at: Command) | Finished(outcome: UpdateOutcome)

  /** `check_git_login`, `check_git_repository` and
      `check_remote_repository`, in that order; the first failing check
      exits with 1 right after its own commands. */
  method RunPreflight(script: Script) returns (verdict: Verdict, log: seq<Command>)
    ensures verdict == Continue <==> PreflightPasses(script)
    ensures verdict != Continue ==> verdict == Exit(1)
    ensures !LoginPasses(script) ==> log == ReadOnlyRun[..2]
    ensures LoginPasses(script) && !RepositoryPasses(script) ==> log == ReadOnlyRun[..3]
    ensures LoginPasses(script) && RepositoryPasses(script) ==> log == ReadOnlyRun[..4]
  {
    var name, email, probe, remotes;
    log := [];
    name, log := Issue(script, log, ConfigUserName);
    email, log := Issue(script, log, ConfigUserEmail);
    verdict := LoginVerdict(name, email);
    if verdict != Continue {
      assert log == ReadOnlyRun[..2];
      return;
    }
    probe, log := Issue(script, log, InsideWorkTree);
    verdict := RepositoryVerdict(probe);
    if verdict != Continue {
      assert log == ReadOnlyRun[..3];
      return;
    }
    remotes, log := Issue(script, log, ListRemotes);
    verdict := RemoteVerdict(remotes);
    assert log == ReadOnlyRun[..4];
  }

  /** After the table: the upload-type prompt, the commit-message prompt
      (where "q" in either case exits with 0), `check_staged_files` and
      `git_update`. */
  method Upload(choice: string, message: string, script: Script, log: seq<Command>)
      returns (end: SessionEnd, log': seq<Command>)
    ensures end.Exited? || end.Finished?
    ensures end.Exited? <==> IsQuit(message)
    ensures end.Exited? ==> end.code == 0
    ensures IsQuit(message) ==> log' == log
    // `check_staged_files` lists the staged files, then `git_update` runs
    ensures end.Finished? ==>
      log' == log + [StagedNames]
              + UpdateCommands(message, UploadAll(choice), Answer(script, log, 2), Answer(script, log, 5))
      && end.outcome
         == UpdateEnd(Answer(script, log, 2), Answer(script, log, 3), Answer(script, log, 5), Answer(script, log, 6))
  {
    var uploadAll := UploadAll(choice);
    if IsQuit(message) {
      end, log' := Exited(0), log;
      return;
    }
    var listing, outcome;
    listing, log' := Issue(script, log, StagedNames);
    assert Answer(script, log', 1) == Answer(script, log, 2) && Answer(script, log', 2) == Answer(script, log, 3);
    assert Answer(script, log', 4) == Answer(script, log, 5) && Answer(script, log', 5) == Answer(script, log, 6);
    outcome, log' := GitUpdate(message, uploadAll, script, log');
    end := Finished(outcome);
  }

  /** The table was built: neither `git status` (the 3rd command after
      `log`) nor `git remote -v` (the 7th) failed. */
  predicate BuiltAfter(script: Script, log: seq<Command>) {
    Answer(script, log, 2).value.Some? && Answer(script, log, 6).value.Some?
  }

  /** Everything after the three checks: `get_git_info`, the two prompts,
      `check_staged_files` and `git_update`, inside the catch-all `try`. */
  method AfterChecks(choice: string, message: string, script: Script, log: seq<Command>)
      returns (end: SessionEnd, log': seq<Command>)
    ensures end.Aborted? <==> !BuiltAfter(script, log)
    ensures end.Exited? <==> BuiltAfter(script, log) && IsQuit(message)
    ensures end.Exited? ==> end.code == 0 && log' == log + InfoCommands
    ensures !end.Finished? ==>
      |log| + 3 <= |log'| <= |log| + 7 && log' == log + InfoCommands[..|log'| - |log|]
    ensures end.Finished? ==>
      log' == log + InfoCommands + [StagedNames]
              + UpdateCommands(message, UploadAll(choice), Answer(script, log, 9), Answer(script, log, 12))
      && end.outcome
         == UpdateEnd(Answer(script, log, 9), Answer(script, log, 10), Answer(script, log, 12), Answer(script, log, 13))
  {
    var report;
    report, log' := GetGitInfo(script, log);
    if report.Raised? {
      assert log' == log + InfoCommands[..3] || log' == log + InfoCommands[..7];
      end := Aborted(report.at);
      return;
    }
    assert log' == log + InfoCommands[..7];
    assert Answer(script, log', 2) == Answer(script, log, 9) && Answer(script, log', 3) == Answer(script, log, 10);
    assert Answer(script, log', 5) == Answer(script, log, 12) && Answer(script, log', 6) == Answer(script, log, 13);
    end, log' := Upload(choice, message, script, log');
  }

  /** One run of the script, given the two prompt answers. */
  method RunSession(choice: string, message: string, script: Script)
      returns (end: SessionEnd, log: seq<Command>)
    // each failed preflight check exits with 1 right after its own commands
    ensures !LoginPasses(script) ==> end == Exited(1) && log == ReadOnlyRun[..2]
    ensures LoginPasses(script) && !RepositoryPasses(script) ==>
      end == Exited(1) && log == ReadOnlyRun[..3]
    ensures LoginPasses(script) && RepositoryPasses(script) && !RemotePasses(script) ==>
      end == Exited(1) && log == ReadOnlyRun[..4]
    ensures end == Exited(1) <==> !PreflightPasses(script)
    // the report starts only once all checks pass
    ensures PreflightPasses(script) ==> |log| >= 7 && log[..7] == ReadOnlyRun[..7]
    // a failing `git status` or `git remote -v` aborts the run
    ensures end.Aborted? <==> PreflightPasses(script) && !ReportBuilt(script)
    // "q" or "Q" ends the run with 0 before anything is staged
    ensures end == Exited(0) <==> PreflightPasses(script) && ReportBuilt(script) && IsQuit(message)
    ensures end == Exited(0) ==> log == ReadOnlyRun
    // short of the end of `git_update`, only read-only commands were issued
    ensures !end.Finished? ==> |log| <= |ReadOnlyRun| && log == ReadOnlyRun[..|log|]
    ensures IsQuit(message) ==> forall k :: 0 <= k < |log| ==> !Mutating(log[k])
    ensures end.Finished? <==> PreflightPasses(script) && ReportBuilt(script) && !IsQuit(message)
    // otherwise the staged files are listed and `git_update` runs on the
    // answers at positions 13 (commit), 14 (file count), 16 (push) and 17 (log),
    // counting from 0
    ensures end.Finished? ==>
      log == ReadOnlyRun + [StagedNames]
             + UpdateCommands(message, UploadAll(choice), RunCommand(script(13)), RunCommand(script(16)))
      && end.outcome
         == UpdateEnd(RunCommand(script(13)), RunCommand(script(14)), RunCommand(script(16)), RunCommand(script(17)))
  {
    ReadOnlyRunReadsOnly();
    var verdict;
    verdict, log := RunPreflight(script);
    if verdict != Continue {
      end := Exited(verdict.code);
      return;
    }
    assert log == PreflightCommands;
    assert BuiltAfter(script, log) == ReportBuilt(script);
    end, log := AfterChecks(choice, message, script, log);
  }

  /** The log of a finished run: the read-only commands, the staged
      listing, the add chosen by the answer, the commit; the push follows
      exactly when the commit reported no error. */
  lemma FinishedRunLog(choice: string, message: string, commit: Outcome, push: Outcome)
    ensures var log := ReadOnlyRun + [StagedNames] + UpdateCommands(message, UploadAll(choice), commit, push);
      && |log| >= 14 && log[..11] == ReadOnlyRun
      && log[11] == StagedNames && log[12] == AddCommand(UploadAll(choice)) && log[13] == Commit(message)
      && (Push in log <==> !Failed(commit))
  {
    var tail := UpdateCommands(message, UploadAll(choice), commit, push);
    var log := ReadOnlyRun + [StagedNames] + tail;
    ReadOnlyRunReadsOnly();
    UpdateOrdering(message, UploadAll(choice), commit, push);
    assert log[..11] == ReadOnlyRun;
    assert Push in log ==> Push in tail by {
      if Push in log {
        var k :| 0 <= k < |log| && log[k] == Push;
        assert k >= 12;
        assert tail[k - 12] == Push;
      }
    }
    assert Push in tail ==> Push in log by {
      if Push in tail {
        var k :| 0 <= k < |tail| && tail[k] == Push;
        assert log[k + 12] == Push;
      }
    }
  }
}
