# upload_to_github.py, modelled in Dafny

`upload_to_github.py` is an interactive helper around the `git` command-line
tool. It runs three checks (a configured identity, a work tree, at least one
remote) and then builds a summary table of the repository. The table holds
the version, the short status, the changes grouped by the sections of
`git status`, the identity, the staged files and the remotes. It asks two
questions (what to stage, and the commit message, where "q" quits), then
stages, commits and pushes.

The model covers these parts of the script:

- **`run_command`** (`Executor`). Its output is stripped the way Python's
  `str.strip()` strips it, and it returns a `(value, error)` pair.
- **The three checks** (`Preflight`). Each gives a verdict: continue, or exit
  with 1.
- **The classifier loop of `get_git_info`** (`StatusSections`). It sorts the
  lines of `git status` under the most recent section header.
- **The rows of the summary table** (`Report`).
- **`git_update`** (`Update`).
- **The prefix `Config.print_status` chooses** (`Config`).
- **The `__main__` block** (`Session`). This covers the order of the checks,
  the choice "2", the case-insensitive "q", and the catch-all `except` that
  ends the run when a `None` output is dereferenced.

The `git` tool itself is not modelled. A `Script` gives, for the k-th command
a run issues, the exit code, stdout and stderr the tool answers. Every method
that issues commands extends a log of `Command`s. The contracts therefore say
which commands run, in which order, and what the run reports for any answers
the tool might give.

The Python string operations the script relies on are written out in `Text`:

- `strip()` removes the characters for which `isspace()` holds.
- `splitlines()` uses Python's own set of line breaks and treats "\r\n" as one
  break.
- `"\n".join`.
- `replace('\t', ' ')`.
- Lower-casing.

The model follows the code, which differs from what one might expect:

- Status lines are filed whole, so "new file:   a.txt" keeps its label
  (`StatusSections.LabelledEntryKept`).
- A failed push is reported and not retried, with or without an upstream.
- The result of `git add` is not looked at.
- Lines before the first section header are dropped.
- The file count is taken from `git diff --cached --name-only` after the
  commit, so after a successful commit it is normally 0.
- A commit that exits non-zero with a blank stderr is not treated as failed:
  its error half is the empty string, which is falsy, so the push still runs.

## Model

| member | source | states |
|---|---|---|
| Executor.Issue | upload_to_github.py:93-98 | issuing a command appends it to the log, and its outcome is `run_command` applied to the tool's answer for that position |
| Executor.RunCommand | upload_to_github.py:93-98 | a non-zero exit gives `(None, stderr.strip())`, a zero exit `(stdout.strip(), None)`; its properties are stated by the three lemmas below |
| Executor.OutcomeShape | upload_to_github.py:93-98 | exactly one half of the pair is `None`; a non-zero exit gives `(None, error)` and a zero exit gives `(value, None)`; the text carries no leading or trailing whitespace |
| Executor.ErrorTruthy | upload_to_github.py:96-97 | the error half is truthy exactly for a non-zero exit whose stderr is not all whitespace |
| Executor.ValueTruthy | upload_to_github.py:96-98 | the value half is truthy exactly for a zero exit whose stdout is not all whitespace |
| Text.StripShape | upload_to_github.py:97-98 | a stripped string is no longer than the original, has non-space ends, and is empty exactly when the original is all whitespace |
| Text.StripPadded | upload_to_github.py:97-98 | stripping removes exactly the surrounding whitespace: a core with non-space ends, padded by whitespace, strips back to the core |
| Text.StripIdempotent | upload_to_github.py:164 | stripping an already stripped line changes nothing |
| Text.SplitLinesNoBreak | upload_to_github.py:158 | no line returned by `splitlines()` contains a line break |
| Text.SplitJoinLines | upload_to_github.py:197-198 | splitting a "\n"-join of non-empty lines without breaks gives those lines back |
| Text.ReplaceTabs | upload_to_github.py:202 | the remote listing keeps its length; every tab becomes a space and every other character stays |
| Text.ToLower | upload_to_github.py:310 | lower-casing keeps the length, maps A-Z to a-z and leaves every other character alone |
| Preflight.LoginVerdict | upload_to_github.py:106-115 | the script continues exactly when both the user name and the email are non-empty; otherwise it exits with 1 |
| Preflight.LoginOnResults | upload_to_github.py:106-115 | login passes exactly when both config commands exit with 0 and print something that is not all whitespace |
| Preflight.RepositoryVerdict | upload_to_github.py:118-124 | the script exits with 1 exactly when `git rev-parse` gives a non-empty error; the value half is ignored |
| Preflight.RepositoryOnResult | upload_to_github.py:118-124 | the repository check fails exactly on a non-zero exit with a stderr that is not all whitespace, so a failure with a blank stderr passes |
| Preflight.RemoteVerdict | upload_to_github.py:127-134 | the script continues exactly when `git remote -v` gave a non-empty listing; otherwise it exits with 1 |
| Preflight.RemoteOnResult | upload_to_github.py:127-134 | the remote check passes exactly when `git remote -v` exits with 0 and prints something that is not all whitespace |
| StatusSections.KindOf | upload_to_github.py:164-173 | the branch a line takes in the `if`/`elif` chain: an entry's text is the stripped line and never empty, and a blank line strips to nothing |
| StatusSections.EntryExactly | upload_to_github.py:164-175 | a line is filed as an entry exactly when its stripped form is non-empty, starts with no header and no hint marker, and is already stripped |
| StatusSections.MarkersExclusive | upload_to_github.py:165-171 | no line starts with two of the three headers and the hint marker, so the order of the `if`/`elif` chain decides nothing among them |
| StatusSections.HeaderExactly | upload_to_github.py:165-171 | each header line sets its own section exactly when the stripped line starts with that header, a line is a hint exactly when it starts with "(use ", and no line resets the section to unset |
| StatusSections.KindOfBlank | upload_to_github.py:164-173 | a line takes the blank case exactly when it is all whitespace |
| StatusSections.CollectSections | upload_to_github.py:163-179 | the loop fills the three lists with exactly the reference routing of the lines: each stripped entry line goes to the list of the most recent header before it |
| StatusSections.EntryIsCollectable | upload_to_github.py:164-173 | a line filed as an entry is stripped, non-empty, and starts with no header and no hint marker |
| StatusSections.RoutedCollectable | upload_to_github.py:163-179 | every element of every list is stripped, non-empty, and neither a header nor a hint line |
| StatusSections.HeaderOrHintNotCollected | upload_to_github.py:165-172 | a header or hint line of the input never appears, stripped, in any list |
| StatusSections.CollectedBound | upload_to_github.py:173-179 | the three lists together hold no more entries than there are entry lines, and so no more than the input has lines |
| StatusSections.NoHeaderNothingCollected | upload_to_github.py:157-173 | without a header line the section stays unset and every list stays empty |
| StatusSections.HeaderlessPrefixDropped | upload_to_github.py:157-173 | lines before the first header change neither the section reached nor any list |
| StatusSections.RoutedAfterHeader | upload_to_github.py:165-179 | after a header for section t, the header-free lines that follow add all their entries, in order, to t's list and nothing to the other lists |
| StatusSections.LabelledEntryKept | upload_to_github.py:164-175 | a line "\tnew file:   a.txt" is filed as the entry "new file:   a.txt", label included |
| Report.CategoryRows | upload_to_github.py:182-187 | one row per non-empty list, and no other row |
| Report.CategoryRowsPresence | upload_to_github.py:182-187 | a category gets a row exactly when its list is non-empty |
| Report.CategoryRowsContents | upload_to_github.py:182-187 | each category row holds its own non-empty list joined by "\n", and the rows come in the order staged, unstaged, untracked |
| Report.ClassifyStatus | upload_to_github.py:157-179 | splitting the `git status` text and running the classifier gives exactly the reference lists of its lines |
| Report.StagedFileList | upload_to_github.py:196-198 | the staged-file cell lists the lines of `git diff --cached --name-only` when it printed something, and otherwise exactly the one "no files" entry |
| Report.GetGitInfo | upload_to_github.py:137-205 | the seven read-only commands in order; a failed `git status` raises just after that command, a failed `git remote -v` at the end; otherwise the rows are those of the answers in the source's order, with the category lists as classified |
| Report.NoHeaderNoCategoryRows | upload_to_github.py:163-187 | a `git status` text without the English headers yields no category row |
| Report.CategoryEntriesBounded | upload_to_github.py:163-187 | every category entry is a collectable line, and the category rows carry no more entries than `git status` printed lines |
| Update.AddCommand | upload_to_github.py:224-229 | `git add -A` exactly when everything is to be uploaded, `git add .` exactly otherwise |
| Update.CommittedCount | upload_to_github.py:240-242 | the file count is 0 exactly when `git diff --cached --name-only` printed nothing |
| Update.UpdateOrdering | upload_to_github.py:220-270 | add, then commit; the push is issued exactly when the commit reported no error; `git log -1 --stat` is issued exactly after a push that printed output and no error, and comes last |
| Update.UpdateEndMatchesCommands | upload_to_github.py:235-270 | the report and the commands agree: a failed commit is reported exactly when no push was issued, a push with details exactly when the log was read, and a push failure or silent push ends with the push; a reported count is 0 exactly when the post-commit `git diff --cached --name-only` printed nothing |
| Update.Publish | upload_to_github.py:252-270 | the push, then the log only after a push with output and no error; a push error is reported, a push with output is reported with the log (kept only when non-empty) and the count, otherwise the run ends quietly |
| Update.GitUpdate | upload_to_github.py:220-270 | the commands are those of the ordering above, and the report is the commit error, the push error, the push output with the log and the file count, or the silent push, as decided by the commit's, the count's, the push's and the log's answers |
| Config.StatusPrefix | upload_to_github.py:50-63 | "info", "warning" and "error" get their own prefixes, each exactly for its type; every other type gets "[ * ]" |
| Session.ChoiceSelectsAdd | upload_to_github.py:303-306 | `git add -A` is chosen exactly for the answer "2", `git add .` for every other answer |
| Session.LowerIsQ | upload_to_github.py:310 | lower-casing gives "q" exactly for "q" and "Q" |
| Session.IsQuit | upload_to_github.py:310-312 | the commit message quits exactly when it is "q" or "Q" |
| Session.RunPreflight | upload_to_github.py:286-293 | the checks run in order and the first failing one exits with 1 right after its own commands; the run continues exactly when all pass |
| Session.Upload | upload_to_github.py:301-318 | "q" or "Q" exits with 0 before any further command; otherwise the staged listing comes next and then the whole of `git_update` with the add chosen by the answer, its commands and its report fixed by the tool's answers |
| Session.AfterChecks | upload_to_github.py:296-321 | a failed `git status` or `git remote -v` ends the run in the `except`; "q" exits with 0 after the table; short of `git_update` only the table's read-only commands ran; otherwise the log and report are the table's commands followed by those of the upload |
| Session.RunSession | upload_to_github.py:273-321 | a failed check exits with 1 after its own commands; the run aborts exactly when a check-passing run's status or remote listing failed; it quits with 0 exactly on "q" or "Q" and then issued only read-only commands; otherwise the whole log and the report of `git_update` are fixed by the answers to the commands at positions 13, 14, 16 and 17, counting from 0 |
| Session.FinishedRunLog | upload_to_github.py:296-318 | a finished run's log is the eleven read-only commands, the staged listing, the chosen add and the commit, and it holds a push exactly when the commit reported no error |

## Left out

- Running processes: `subprocess.run`, the shell, and the quoting of the commit message inside `git commit -m "..."` are not modelled. A command is a `Command` value and the tool's answers are a `Script` parameter.
- `Config.check_for_updates` and `get_latest_version` are not modelled, because they query the network through `requests`. The version comparison they make is a plain string `<`.
- Printing is not modelled: colours, the banner from `generate_titles`, `print_divider`, the status messages (only the choice of prefix in `print_status` is modelled), and the lines `check_staged_files` prints. The command `check_staged_files` issues is in the log.
- The PrettyTable layout (title, alignment, `max_width`, borders) is not modelled. A row is a label and its cell value, and the labels are a datatype rather than the Chinese texts.
- `input()` and `exit()` are not modelled. The two answers are parameters, and an exit is the `Exited(code)` end of a run.
- Text.ToLower: lower-cases only A-Z, not the whole of Unicode. The one comparison the script makes, `lower() == 'q'`, cannot tell the difference: Python's `lower()` never shortens a string, so only a one-character message can lower to "q", and only 'q' and 'Q' do.
- Session.RunSession: states the table's contents only through `Report.GetGitInfo`, which it calls.
- Session.RunSession: is modelled as if neither the update check nor the prompts raise. In the source, `check_for_updates` can raise before any git command: `response.json()["tag_name"]` raises a `KeyError` that the `except` for request errors does not catch, and the version comparison raises a `TypeError` for a tag that is not a string. `input()` raises `EOFError` at the end of input. `subprocess.run(..., text=True)` raises `UnicodeDecodeError` when the tool prints bytes that do not decode, and printing the Chinese messages raises `UnicodeEncodeError` on a console that cannot encode them. The catch-all `except` would end the run in each case.
- Update.GitUpdate and Update.Publish: the messages about the log output are not modelled. When the log printed nothing, the outcome holds `None`.
