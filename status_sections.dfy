/**
 * The section classifier of `get_git_info`: a pass over the lines of
 * `git status` that remembers the most recent section header and files every
 * other meaningful line under it.
 */
module StatusSections {
  import opened Text

  /** `current_section`; `Unsectioned` is its initial `None`. */
  datatype Section = Unsectioned | ToBeCommitted | NotStaged | Untracked

  /** What the loop body does with one line, decided on the stripped line in
      the order of the source's `if`/`elif` chain. */
  datatype LineKind = Header(section: Section) | Hint | Blank | Entry(text: string)

  const CommittedHeader := "Changes to be committed:"
  const NotStagedHeader := "Changes not staged for commit:"
  const UntrackedHeader := "Untracked files:"
  const HintMarker := "(use "

  function KindOf(raw: string): (k: LineKind)
    ensures k.Entry? ==> k.text == Strip(raw) && k.text != []
    ensures k == Blank ==> Strip(raw) == []
  {
    var line := Strip(raw);
    if StartsWith(line, CommittedHeader) then Header(ToBeCommitted)
    else if StartsWith(line, NotStagedHeader) then Header(NotStaged)
    else if StartsWith(line, UntrackedHeader) then Header(Untracked)
    else if StartsWith(line, HintMarker) then Hint
    else if line == [] then Blank
    else Entry(line)
  }

  /** A line is blank exactly when it is all whitespace: no header or hint
      marker is empty, so an all-whitespace line reaches the blank case. */
  lemma KindOfBlank(raw: string)
    ensures KindOf(raw) == Blank <==> AllSpace(raw)
  {
    StripShape(raw);
  }

  /** The section in force after reading `lines`: that of the last header. */
  function SectionAfter(lines: seq<string>): Section {
    if lines == [] then Unsectioned
    else
      match KindOf(lines[|lines| - 1])
      case Header(s) => s
      case _ => SectionAfter(lines[..|lines| - 1])
  }

  /** Reference definition of one output list: the stripped entry lines of
      `lines`, in order, whose most recent preceding header names `s`. */
  function Routed(lines: seq<string>, s: Section): seq<string> {
    if lines == [] then []
    else
      var prefix, kind := lines[..|lines| - 1], KindOf(lines[|lines| - 1]);
      Routed(prefix, s)
        + (if kind.Entry? && s != Unsectioned && SectionAfter(prefix) == s then [kind.text] else [])
  }

  /** The stripped entry lines of `lines`, in order, whatever their section. */
  function Entries(lines: seq<string>): seq<string> {
    if lines == [] then []
    else
      var kind := KindOf(lines[|lines| - 1]);
      Entries(lines[..|lines| - 1]) + (if kind.Entry? then [kind.text] else [])
  }

  /** What an output list may hold: a stripped, non-empty line that is
      neither a header nor a hint. */
  predicate Collectable(e: string) {
    e != [] && Strip(e) == e
    && !StartsWith(e, CommittedHeader) && !StartsWith(e, NotStagedHeader)
    && !StartsWith(e, UntrackedHeader) && !StartsWith(e, HintMarker)
  }

  /** The loop of `get_git_info` over `git_detailed_status.splitlines()`. */
  method CollectSections(lines: seq<string>)
      returns (staged: seq<string>, unstaged: seq<string>, untracked: seq<string>)
    ensures staged == Routed(lines, ToBeCommitted)
    ensures unstaged == Routed(lines, NotStaged)
    ensures untracked == Routed(lines, Untracked)
  {
    var current := Unsectioned;
    staged, unstaged, untracked := [], [], [];
    for i := 0 to |lines|
      invariant current == SectionAfter(lines[..i])
      invariant staged == Routed(lines[..i], ToBeCommitted)
      invariant unstaged == Routed(lines[..i], NotStaged)
      invariant untracked == Routed(lines[..i], Untracked)
    {
      assert lines[..i + 1] == lines[..i] + [lines[i]];
      RoutedSnoc(lines[..i], lines[i], ToBeCommitted);
      RoutedSnoc(lines[..i], lines[i], NotStaged);
      RoutedSnoc(lines[..i], lines[i], Untracked);
      var line := Strip(lines[i]);
      if StartsWith(line, CommittedHeader) {
        current := ToBeCommitted;
      } else if StartsWith(line, NotStagedHeader) {
        current := NotStaged;
      } else if StartsWith(line, UntrackedHeader) {
        current := Untracked;
      } else if StartsWith(line, HintMarker) {
        continue;
      } else if current != Unsectioned && line != [] {
        if current == ToBeCommitted {
          staged := staged + [line];
        } else if current == NotStaged {
          unstaged := unstaged + [line];
        } else if current == Untracked {
          untracked := untracked + [line];
        }
      }
    }
    assert lines[..|lines|] == lines;
  }

  /** One more line: how the section and the lists grow. */
  lemma RoutedSnoc(lines: seq<string>, x: string, s: Section)
    ensures SectionAfter(lines + [x])
      == (if KindOf(x).Header? then KindOf(x).section else SectionAfter(lines))
    ensures Routed(lines + [x], s)
      == Routed(lines, s) + if KindOf(x).Entry? && s != Unsectioned && SectionAfter(lines) == s then [KindOf(x).text] else []
  {
    assert (lines + [x])[..|lines|] == lines;
  }

  lemma EntryIsCollectable(raw: string)
    requires KindOf(raw).Entry?
    ensures Collectable(KindOf(raw).text)
  {
    StripIdempotent(raw);
  }

  /** The entry case, both ways: a line is filed as an entry exactly when its
      stripped form is collectable. */
  lemma EntryExactly(raw: string)
    ensures KindOf(raw).Entry? <==> Collectable(Strip(raw))
  {
    if KindOf(raw).Entry? {
      EntryIsCollectable(raw);
    }
  }

  /** No stripped line starts with two of the three headers and the hint
      marker: the two "Changes" headers part at index 8, the others at 0. */
  lemma MarkersExclusive(line: string)
    ensures StartsWith(line, NotStagedHeader) ==> !StartsWith(line, CommittedHeader)
    ensures StartsWith(line, UntrackedHeader) ==>
      !StartsWith(line, CommittedHeader) && !StartsWith(line, NotStagedHeader)
    ensures StartsWith(line, HintMarker) ==>
      !StartsWith(line, CommittedHeader) && !StartsWith(line, NotStagedHeader) &&
      !StartsWith(line, UntrackedHeader)
  {
    if StartsWith(line, NotStagedHeader) {
      assert line[8] == NotStagedHeader[..|NotStagedHeader|][8] == 'n';
    }
    if StartsWith(line, UntrackedHeader) {
      assert line[0] == UntrackedHeader[..|UntrackedHeader|][0] == 'U';
    }
    if StartsWith(line, HintMarker) {
      assert line[0] == HintMarker[..|HintMarker|][0] == '(';
    }
  }

  /** The header and hint cases, both ways: each header sets its own section
      exactly when the stripped line starts with it, whatever its place in
      the `if`/`elif` chain, and no line unsets the section. */
  lemma HeaderExactly(raw: string)
    ensures KindOf(raw) == Header(ToBeCommitted) <==> StartsWith(Strip(raw), CommittedHeader)
    ensures KindOf(raw) == Header(NotStaged) <==> StartsWith(Strip(raw), NotStagedHeader)
    ensures KindOf(raw) == Header(Untracked) <==> StartsWith(Strip(raw), UntrackedHeader)
    ensures KindOf(raw) == Hint <==> StartsWith(Strip(raw), HintMarker)
    ensures KindOf(raw) != Header(Unsectioned)
  {
    MarkersExclusive(Strip(raw));
  }

  /** Headers and hints are never emitted, nor blank lines: every entry of
      every list is stripped and non-empty, and starts with no header and
      no hint marker. */
  lemma {:induction false} RoutedCollectable(lines: seq<string>, s: Section)
    ensures forall e :: e in Routed(lines, s) ==> Collectable(e)
    decreases |lines|
  {
    if lines != [] {
      RoutedCollectable(lines[..|lines| - 1], s);
      var kind := KindOf(lines[|lines| - 1]);
      if kind.Entry? {
        EntryIsCollectable(lines[|lines| - 1]);
      }
    }
  }

  /** A header or hint line of the input never shows up, stripped, in any
      list. */
  lemma HeaderOrHintNotCollected(lines: seq<string>, i: nat, s: Section)
    requires i < |lines|
    requires KindOf(lines[i]).Header? || KindOf(lines[i]) == Hint
    ensures Strip(lines[i]) !in Routed(lines, s)
  {
    RoutedCollectable(lines, s);
  }

  /** Together the three lists hold each entry line at most once: no more
      entries than there are entry lines, hence than input lines. */
  lemma {:induction false} CollectedBound(lines: seq<string>)
    ensures |Routed(lines, ToBeCommitted)| + |Routed(lines, NotStaged)| + |Routed(lines, Untracked)|
      <= |Entries(lines)| <= |lines|
    decreases |lines|
  {
    if lines != [] {
      CollectedBound(lines[..|lines| - 1]);
    }
  }

  /** Without a header line nothing is collected. */
  lemma {:induction false} NoHeaderNothingCollected(lines: seq<string>, s: Section)
    requires forall k :: 0 <= k < |lines| ==> !KindOf(lines[k]).Header?
    ensures SectionAfter(lines) == Unsectioned
    ensures Routed(lines, s) == []
    decreases |lines|
  {
    if lines != [] {
      NoHeaderNothingCollected(lines[..|lines| - 1], s);
    }
  }

  /** Lines before the first header are dropped: a header-free prefix
      changes neither the section reached nor any list. */
  lemma {:induction false} HeaderlessPrefixDropped(pre: seq<string>, rest: seq<string>, s: Section)
    requires forall k :: 0 <= k < |pre| ==> !KindOf(pre[k]).Header?
    ensures SectionAfter(pre + rest) == SectionAfter(rest)
    ensures Routed(pre + rest, s) == Routed(rest, s)
    decreases |rest|
  {
    if rest == [] {
      assert pre + rest == pre;
      NoHeaderNothingCollected(pre, s);
    } else {
      var n := |pre + rest|;
      assert (pre + rest)[..n - 1] == pre + rest[..|rest| - 1];
      assert (pre + rest)[n - 1] == rest[|rest| - 1];
      HeaderlessPrefixDropped(pre, rest[..|rest| - 1], s);
    }
  }

  /** Routing: after a header for section `t`, the header-free lines that
      follow add all their entries, in order, to the list of `t` and
      nothing to any other list. */
  lemma {:induction false} RoutedAfterHeader(pre: seq<string>, h: string, body: seq<string>, t: Section, s: Section)
    requires KindOf(h) == Header(t)
    requires forall k :: 0 <= k < |body| ==> !KindOf(body[k]).Header?
    ensures SectionAfter(pre + [h] + body) == t
    ensures Routed(pre + [h] + body, s)
      == Routed(pre, s) + (if s == t then Entries(body) else [])
    decreases |body|
  {
    if body == [] {
      assert pre + [h] + body == pre + [h];
      RoutedSnoc(pre, h, s);
    } else {
      var most, last := body[..|body| - 1], body[|body| - 1];
      assert pre + [h] + body == (pre + [h] + most) + [last];
      assert body[..|body| - 1] == most;
      RoutedSnoc(pre + [h] + most, last, s);
      RoutedAfterHeader(pre, h, most, t, s);
    }
  }

  /** A status line such as "\tnew file:   a.txt" is filed whole: only the
      surrounding whitespace goes, the "new file:" label stays. */
  lemma LabelledEntryKept()
    ensures KindOf("\tnew file:   a.txt") == Entry("new file:   a.txt")
  {
    var core := "new file:   a.txt";
    assert "\tnew file:   a.txt" == "\t" + core + [];
    StripPadded("\t", core, []);
    assert |core| == 17 && core[0] == 'n';
    assert core[..|UntrackedHeader|][0] != UntrackedHeader[0];
    assert core[..|HintMarker|][0] != HintMarker[0];
  }
}
