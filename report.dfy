/**
 * The rows of the summary table that `get_git_info` assembles. The layout of
 * the table itself (borders, alignment, wrapping) is not modelled; a row is
 * a label and the value put in its second column.
 */
module Report {
  import opened Wrappers
  import opened Text
  import opened Executor
  import opened StatusSections

  datatype Label =
    | GitVersion
    | CurrentStatus
    | Changes(section: Section)
    | UserName
    | UserEmail
    | StagedFiles
    | RemoteInfo

  /** `value` is `None` where the source puts Python's `None` in the cell. */
  datatype Row = Row(item: Label, value: Option<string>)

  /** The finished rows, or the command whose `None` output was dereferenced
      (an `AttributeError` that `__main__` catches). */
  datatype GitInfo = Table(rows: seq<Row>) | Raised(at: Command)

  /** The one entry listed when nothing is staged. */
  const NoStagedFilesText := "暂存区中没有文件。"

  /** The three lists the classifier fills. */
  datatype SectionLists = SectionLists(staged: seq<string>, unstaged: seq<string>, untracked: seq<string>) {
    function Get(s: Section): seq<string> {
      match s
      case Unsectioned => []
      case ToBeCommitted => staged
      case NotStaged => unstaged
      case Untracked => untracked
    }
  }

  /** The order in which the category rows are added. */
  function Rank(s: Section): nat {
    match s
    case Unsectioned => 0
    case ToBeCommitted => 1
    case NotStaged => 2
    case Untracked => 3
  }

  predicate HasRow(rows: seq<Row>, item: Label) {
    exists k :: 0 <= k < |rows| && rows[k].item == item
  }

  /** The category rows: one per non-empty list. */
  function CategoryRows(lists: SectionLists): (rows: seq<Row>)
    ensures |rows| == (if lists.staged != [] then 1 else 0) + (if lists.unstaged != [] then 1 else 0)
                      + (if lists.untracked != [] then 1 else 0)
  {
    (if lists.staged != [] then [Row(Changes(ToBeCommitted), Some(JoinLines(lists.staged)))] else [])
    + (if lists.unstaged != [] then [Row(Changes(NotStaged), Some(JoinLines(lists.unstaged)))] else [])
    + (if lists.untracked != [] then [Row(Changes(Untracked), Some(JoinLines(lists.untracked)))] else [])
  }

  /** A category has a row exactly when its list is non-empty. */
  lemma CategoryRowsPresence(lists: SectionLists)
    ensures forall s :: HasRow(CategoryRows(lists), Changes(s)) <==> lists.Get(s) != []
  {
    var staged := if lists.staged != [] then [Row(Changes(ToBeCommitted), Some(JoinLines(lists.staged)))] else [];
    var unstaged := if lists.unstaged != [] then [Row(Changes(NotStaged), Some(JoinLines(lists.unstaged)))] else [];
    var untracked := if lists.untracked != [] then [Row(Changes(Untracked), Some(JoinLines(lists.untracked)))] else [];
    var rows := staged + unstaged + untracked;
    assert rows == CategoryRows(lists);
    assert lists.staged != [] ==> rows[0].item == Changes(ToBeCommitted);
    assert lists.unstaged != [] ==> rows[|staged|].item == Changes(NotStaged);
    assert lists.untracked != [] ==> rows[|staged| + |unstaged|].item == Changes(Untracked);
  }

  /** Each category row holds the entries of its own, non-empty list joined
      by "\n", and the rows come in the order staged, unstaged, untracked. */
  lemma CategoryRowsContents(lists: SectionLists)
    ensures var rows := CategoryRows(lists);
      && (forall k :: 0 <= k < |rows| ==>
            rows[k].item.Changes? && lists.Get(rows[k].item.section) != []
            && rows[k].value == Some(JoinLines(lists.Get(rows[k].item.section))))
      && (forall j, k :: 0 <= j < k < |rows| ==>
            Rank(rows[j].item.section) < Rank(rows[k].item.section))
  {
  }

  /** The staged-file list: the lines of `git diff --cached --name-only` when
      it printed something, else exactly the one sentinel entry. */
  function StagedFileList(names: Option<string>): (files: seq<string>)
    ensures |files| >= 1
    ensures Truthy(names) ==> files == SplitLines(names.value)
    ensures !Truthy(names) ==> files == [NoStagedFilesText]
  {
    if Truthy(names) then SplitLines(names.value) else [NoStagedFilesText]
  }

  /** The three lists for the text of `git status`, by the reference
      definition of the classifier. */
  function SectionsOf(detailed: string): SectionLists {
    var lines := SplitLines(detailed);
    SectionLists(Routed(lines, ToBeCommitted), Routed(lines, NotStaged), Routed(lines, Untracked))
  }

  /** Lines 157-179 of `get_git_info`: split the text of `git status` and
      run the classifier over its lines. */
  method ClassifyStatus(detailed: string) returns (lists: SectionLists)
    ensures lists == SectionsOf(detailed)
  {
    var lines := SplitLines(detailed);
    var toBeCommitted, notStaged, untracked := CollectSections(lines);
    lists := SectionLists(toBeCommitted, notStaged, untracked);
  }

  /** All rows, in the order the source adds them. */
  function InfoRows(version: Option<string>, status: Option<string>, lists: SectionLists,
                    name: Option<string>, email: Option<string>, staged: Option<string>,
                    remotes: string): seq<Row>
  {
    [Row(GitVersion, version), Row(CurrentStatus, status)]
    + CategoryRows(lists)
    + [Row(UserName, name), Row(UserEmail, email),
       Row(StagedFiles, Some(JoinLines(StagedFileList(staged)))),
       Row(RemoteInfo, Some(ReplaceTabs(remotes)))]
  }

  /** The commands `get_git_info` issues when it gets to the end. */
  const InfoCommands := [ShowVersion, ShortStatus, LongStatus, ConfigUserName, ConfigUserEmail,
                         StagedNames, ListRemotes]

  /** `get_git_info`: seven read-only commands, then the rows. A failed
      `git status` stops it right after that command, a failed
      `git remote -v` at the end. */
  method GetGitInfo(script: Script, log: seq<Command>) returns (report: GitInfo, log': seq<Command>)
    ensures |log'| >= |log| + 3 && log'[..|log| + 3] == log + InfoCommands[..3]
    ensures Answer(script, log, 2).value.None? ==>
      log' == log + InfoCommands[..3] && report == Raised(LongStatus)
    ensures Answer(script, log, 2).value.Some? ==> log' == log + InfoCommands
    ensures Answer(script, log, 2).value.Some? && Answer(script, log, 6).value.None? ==>
      report == Raised(ListRemotes)
    ensures Answer(script, log, 2).value.Some? && Answer(script, log, 6).value.Some? ==>
      report == Table(InfoRows(Answer(script, log, 0).value, Answer(script, log, 1).value,
                               SectionsOf(Answer(script, log, 2).value.value),
                               Answer(script, log, 3).value, Answer(script, log, 4).value,
                               Answer(script, log, 5).value, Answer(script, log, 6).value.value))
  {
    var version, status, detailed, name, email, staged, remotes;
    version, log' := Issue(script, log, ShowVersion);
    status, log' := Issue(script, log', ShortStatus);
    detailed, log' := Issue(script, log', LongStatus);
    assert log' == log + InfoCommands[..3];
    assert version == Answer(script, log, 0) && status == Answer(script, log, 1);
    assert detailed == Answer(script, log, 2);
    if detailed.value.None? {
      report := Raised(LongStatus);
      return;
    }
    var lists := ClassifyStatus(detailed.value.value);
    name, log' := Issue(script, log', ConfigUserName);
    email, log' := Issue(script, log', ConfigUserEmail);
    staged, log' := Issue(script, log', StagedNames);
    remotes, log' := Issue(script, log', ListRemotes);
    assert log' == log + InfoCommands;
    assert name == Answer(script, log, 3) && email == Answer(script, log, 4);
    assert staged == Answer(script, log, 5) && remotes == Answer(script, log, 6);
    if remotes.value.None? {
      report := Raised(ListRemotes);
      return;
    }
    report := Table(InfoRows(version.value, status.value, lists,
                             name.value, email.value, staged.value, remotes.value.value));
  }

  /** A `git status` text without any of the English headers (a tool set to
      another language, say) yields no category row at all. */
  lemma NoHeaderNoCategoryRows(detailed: string)
    requires forall k :: 0 <= k < |SplitLines(detailed)| ==> !KindOf(SplitLines(detailed)[k]).Header?
    ensures CategoryRows(SectionsOf(detailed)) == []
  {
    var lines := SplitLines(detailed);
    NoHeaderNothingCollected(lines, ToBeCommitted);
    NoHeaderNothingCollected(lines, NotStaged);
    NoHeaderNothingCollected(lines, Untracked);
  }

  /** Every entry in a category row is a collectable line of its section,
      and together the category rows carry no more entries than `git status`
      printed lines. */
  lemma CategoryEntriesBounded(detailed: string)
    ensures var lists := SectionsOf(detailed);
      && (forall s, e :: e in lists.Get(s) ==> Collectable(e))
      && |lists.staged| + |lists.unstaged| + |lists.untracked| <= |SplitLines(detailed)|
  {
    var lines := SplitLines(detailed);
    RoutedCollectable(lines, ToBeCommitted);
    RoutedCollectable(lines, NotStaged);
    RoutedCollectable(lines, Untracked);
    CollectedBound(lines);
  }
}
