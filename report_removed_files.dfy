/**
  `format_removed_files` of scripts/generate-diff-documentation.py: the
  "Removed Dawn Files" section. The removed files are split by their flags
  into files to restore and files whose Dawn 15.4.0 version is accepted; the
  latter are split again into files to patch with customizations and files
  to accept as they are.
*/
module ReportRemovedFiles {
  import opened JsonValues
  import opened Strings
  import opened Sequences

  /** An entry of `inventory['removed_dawn_files']`. The three flags are read
      for their truthiness; `description` is shown with `str`, and is the
      empty string when absent. */
  datatype RemovedFile = RemovedFile(
    path: string,
    shouldRestore: Option<Scalar>,
    acceptDawn: Option<Scalar>,
    hasCustomizations: Option<Scalar>,
    description: Option<Scalar>)

  const Header: seq<string> :=
    ["## Removed Dawn Files\n", "Dawn 10.0.0 files that were removed. Categorized by action needed.\n"]
  const NoneRemoved: string := "No Dawn files were removed."
  const RestoreHeader: seq<string> := ["### Files to Restore (moved to separate section below)"]
  const PatchHeader: seq<string> :=
    [ "### Files to Patch with Customizations",
      "These dev/config files had customizations before deletion.",
      "Accept Dawn 15.4.0 version and patch in customizations from diff.\n" ]
  const CleanHeader: seq<string> :=
    [ "### Files to Accept from Dawn 15.4.0 (no customizations)",
      "These dev/config files can accept Dawn 15.4.0 versions as-is.\n" ]

  // ---------------------------------------------------------------------
  // The partition

  predicate ToBeRestored(f: RemovedFile) { Truthy(f.shouldRestore) }
  predicate AcceptsDawn(f: RemovedFile) { Truthy(f.acceptDawn) }
  predicate Customized(f: RemovedFile) { Truthy(f.hasCustomizations) }
  predicate Uncustomized(f: RemovedFile) { !Truthy(f.hasCustomizations) }

  /** `to_restore` */
  function ToRestore(removed: seq<RemovedFile>): seq<RemovedFile>
  {
    Filter(removed, ToBeRestored)
  }

  /** `to_accept_dawn` */
  function ToAcceptDawn(removed: seq<RemovedFile>): seq<RemovedFile>
  {
    Filter(removed, AcceptsDawn)
  }

  /** `to_patch` */
  function ToPatch(removed: seq<RemovedFile>): seq<RemovedFile>
  {
    Filter(ToAcceptDawn(removed), Customized)
  }

  /** `to_accept_clean` */
  function ToAcceptClean(removed: seq<RemovedFile>): seq<RemovedFile>
  {
    Filter(ToAcceptDawn(removed), Uncustomized)
  }

  /** Each list holds exactly the removed files whose flags select it, and
      keeps them in the order of the inventory. */
  lemma {:induction false} Selections(removed: seq<RemovedFile>)
    ensures forall f :: f in ToRestore(removed) <==> f in removed && ToBeRestored(f)
    ensures forall f :: f in ToAcceptDawn(removed) <==> f in removed && AcceptsDawn(f)
    ensures forall f :: f in ToPatch(removed) <==> f in removed && AcceptsDawn(f) && Customized(f)
    ensures forall f :: f in ToAcceptClean(removed) <==> f in removed && AcceptsDawn(f) && !Customized(f)
    ensures IsSubseq(ToRestore(removed), removed)
    ensures IsSubseq(ToPatch(removed), removed)
    ensures IsSubseq(ToAcceptClean(removed), removed)
  {
    var accept := ToAcceptDawn(removed);
    FilterMembers(removed, ToBeRestored);
    FilterMembers(removed, AcceptsDawn);
    FilterMembers(accept, Customized);
    FilterMembers(accept, Uncustomized);
    FilterSubseq(removed, ToBeRestored);
    FilterSubseq(removed, AcceptsDawn);
    FilterSubseq(accept, Customized);
    FilterSubseq(accept, Uncustomized);
    SubseqTransitive(ToPatch(removed), accept, removed);
    SubseqTransitive(ToAcceptClean(removed), accept, removed);
  }

  /** The files whose Dawn version is accepted are split without loss or
      overlap: every one of them, as often as it occurs, lands in exactly
      one of the patch and clean lists. */
  lemma {:induction false} AcceptDawnSplit(removed: seq<RemovedFile>)
    ensures multiset(ToPatch(removed)) + multiset(ToAcceptClean(removed)) == multiset(ToAcceptDawn(removed))
    ensures forall f :: !(f in ToPatch(removed) && f in ToAcceptClean(removed))
  {
    FilterPartition(ToAcceptDawn(removed), Customized, Uncustomized);
    FilterMembers(ToAcceptDawn(removed), Customized);
    FilterMembers(ToAcceptDawn(removed), Uncustomized);
  }

  // ---------------------------------------------------------------------
  // The lines

  /** `file_info.get('description', '')` */
  function DescriptionText(f: RemovedFile): string
  {
    match f.description
    case Some(d) => Str(d)
    case None => ""
  }

  function DescribedLine(idx: nat, f: RemovedFile): string
  {
    NatToString(idx) + ". `" + f.path + "` - " + DescriptionText(f)
  }

  /** The files numbered from 1, the `k`-th (from 0) as `k + 1`. */
  function RestoreLines(files: seq<RemovedFile>): (lines: seq<string>)
    ensures |lines| == |files|
    ensures forall k :: 0 <= k < |files| ==> lines[k] == PathLine(k + 1, files[k].path)
  {
    if files == [] then []
    else RestoreLines(files[..|files| - 1]) + [PathLine(|files|, files[|files| - 1].path)]
  }

  /** The files numbered from 1 with their descriptions. */
  function DescribedLines(files: seq<RemovedFile>): (lines: seq<string>)
    ensures |lines| == |files|
    ensures forall k :: 0 <= k < |files| ==> lines[k] == DescribedLine(k + 1, files[k])
  {
    if files == [] then []
    else DescribedLines(files[..|files| - 1]) + [DescribedLine(|files|, files[|files| - 1])]
  }

  function RestoreSection(removed: seq<RemovedFile>): seq<string>
  {
    var files := ToRestore(removed);
    if files == [] then [] else RestoreHeader + RestoreLines(files) + [""]
  }

  function PatchSection(removed: seq<RemovedFile>): seq<string>
  {
    var files := ToPatch(removed);
    if files == [] then [] else PatchHeader + DescribedLines(files) + [""]
  }

  /** The last list of the section has no blank line after it. */
  function CleanSection(removed: seq<RemovedFile>): seq<string>
  {
    var files := ToAcceptClean(removed);
    if files == [] then [] else CleanHeader + DescribedLines(files)
  }

  function AcceptSections(removed: seq<RemovedFile>): seq<string>
  {
    if ToAcceptDawn(removed) == [] then [] else PatchSection(removed) + CleanSection(removed)
  }

  /** The lines of the whole section. */
  function RemovedFilesLines(removed: seq<RemovedFile>): seq<string>
  {
    Header + if removed == [] then [NoneRemoved] else RestoreSection(removed) + AcceptSections(removed)
  }

  // ---------------------------------------------------------------------
  // The message for an empty list

  /** A numbered line starts with a digit, so it is never the message. */
  lemma {:induction false} NumberedIsNotMessage(idx: nat, f: RemovedFile)
    ensures PathLine(idx, f.path) != NoneRemoved
    ensures DescribedLine(idx, f) != NoneRemoved
  {
    assert NoneRemoved[0] == 'N';
    PathLineIsNot(idx, f.path, NoneRemoved);
    assert DescribedLine(idx, f)[0] == NatToString(idx)[0];
  }

  lemma {:induction false} ListsAreNotMessage(files: seq<RemovedFile>)
    ensures NoneRemoved !in RestoreLines(files)
    ensures NoneRemoved !in DescribedLines(files)
  {
    forall k | 0 <= k < |files|
      ensures RestoreLines(files)[k] != NoneRemoved && DescribedLines(files)[k] != NoneRemoved
    {
      NumberedIsNotMessage(k + 1, files[k]);
    }
  }

  /** "No Dawn files were removed." appears exactly when the inventory lists
      no removed file, and then the section holds nothing else. */
  lemma {:induction false} NoRemovedMessage(removed: seq<RemovedFile>)
    ensures removed == [] ==> RemovedFilesLines(removed) == Header + [NoneRemoved]
    ensures NoneRemoved in RemovedFilesLines(removed) <==> removed == []
  {
    if removed != [] {
      RestoreSectionIsNotMessage(removed);
      PatchSectionIsNotMessage(removed);
      CleanSectionIsNotMessage(removed);
      assert NoneRemoved !in Header;
    }
  }

  lemma {:induction false} RestoreSectionIsNotMessage(removed: seq<RemovedFile>)
    ensures NoneRemoved !in RestoreSection(removed)
  {
    var files := ToRestore(removed);
    if files != [] {
      ListsAreNotMessage(files);
      assert RestoreSection(removed) == RestoreHeader + RestoreLines(files) + [""];
      assert NoneRemoved !in RestoreHeader;
    }
  }

  lemma {:induction false} PatchSectionIsNotMessage(removed: seq<RemovedFile>)
    ensures NoneRemoved !in PatchSection(removed)
  {
    var files := ToPatch(removed);
    if files != [] {
      ListsAreNotMessage(files);
      assert PatchSection(removed) == PatchHeader + DescribedLines(files) + [""];
      assert NoneRemoved !in PatchHeader;
    }
  }

  lemma {:induction false} CleanSectionIsNotMessage(removed: seq<RemovedFile>)
    ensures NoneRemoved !in CleanSection(removed)
  {
    var files := ToAcceptClean(removed);
    if files != [] {
      ListsAreNotMessage(files);
      assert CleanSection(removed) == CleanHeader + DescribedLines(files);
      assert NoneRemoved !in CleanHeader;
    }
  }


  // ---------------------------------------------------------------------
  // The section, line by line

  /** `format_removed_files`. */
  method FormatRemovedFiles(removed: seq<RemovedFile>) returns (lines: seq<string>)
    ensures lines == RemovedFilesLines(removed)
  {
    lines := Header;
    if removed != [] {
      lines := AppendRestoreSection(lines, removed);
      ghost var afterRestore := lines;
      var toAcceptDawn := ToAcceptDawn(removed);
      if toAcceptDawn != [] {
        lines := AppendAcceptSections(lines, removed);
      }
      AppendAssoc(Header, RestoreSection(removed), AcceptSections(removed));
    } else {
      lines := lines + [NoneRemoved];
    }
  }

  method AppendRestoreSection(lines: seq<string>, removed: seq<RemovedFile>) returns (out: seq<string>)
    ensures out == lines + RestoreSection(removed)
  {
    out := lines;
    var toRestore := ToRestore(removed);
    if toRestore != [] {
      out := out + RestoreHeader;
      ghost var before := out;
      for idx := 0 to |toRestore|
        invariant out == before + RestoreLines(toRestore[..idx])
      {
        assert RestoreLines(toRestore[..idx + 1]) == RestoreLines(toRestore[..idx]) + [PathLine(idx + 1, toRestore[idx].path)] by {
          assert toRestore[..idx + 1][..idx] == toRestore[..idx];
        }
        out := out + [NatToString(idx + 1) + ". `" + toRestore[idx].path + "`"];
      }
      assert toRestore[..|toRestore|] == toRestore;
      out := out + [""];
      AppendAssoc(lines, RestoreHeader, RestoreLines(toRestore));
      AppendAssoc(lines, RestoreHeader + RestoreLines(toRestore), [""]);
    }
  }

  method AppendAcceptSections(lines: seq<string>, removed: seq<RemovedFile>) returns (out: seq<string>)
    requires ToAcceptDawn(removed) != []
    ensures out == lines + AcceptSections(removed)
  {
    var toAcceptDawn := ToAcceptDawn(removed);
    var toPatch := Filter(toAcceptDawn, Customized);
    var toAcceptClean := Filter(toAcceptDawn, Uncustomized);
    out := lines;
    if toPatch != [] {
      out := out + PatchHeader;
      out := AppendDescribed(out, toPatch);
      out := out + [""];
      AppendAssoc(lines, PatchHeader, DescribedLines(toPatch));
      AppendAssoc(lines, PatchHeader + DescribedLines(toPatch), [""]);
    }
    ghost var afterPatch := out;
    if toAcceptClean != [] {
      out := out + CleanHeader;
      out := AppendDescribed(out, toAcceptClean);
      AppendAssoc(afterPatch, CleanHeader, DescribedLines(toAcceptClean));
    }
    AppendAssoc(lines, PatchSection(removed), CleanSection(removed));
  }

  /** The numbered lines with descriptions, appended to `lines`. */
  method AppendDescribed(lines: seq<string>, files: seq<RemovedFile>) returns (out: seq<string>)
    ensures out == lines + DescribedLines(files)
  {
    out := lines;
    for idx := 0 to |files|
      invariant out == lines + DescribedLines(files[..idx])
    {
      assert DescribedLines(files[..idx + 1]) == DescribedLines(files[..idx]) + [DescribedLine(idx + 1, files[idx])] by {
        assert files[..idx + 1][..idx] == files[..idx];
      }
      var fileInfo := files[idx];
      out := out + [NatToString(idx + 1) + ". `" + fileInfo.path + "` - " + DescriptionText(fileInfo)];
    }
    assert files[..|files|] == files;
  }
}
