/**
  The parts of `main` in scripts/generate-diff-documentation.py that take
  decisions: the executive summary's counts, the validation verdicts and
  the sorted lists of files to revert, restore and patch. The counts, the
  validation flags and the lists are read from the inventory as they are.
*/
module ReportMain {
  import opened JsonValues
  import opened Strings
  import opened StringOrder
  import opened Sequences

  /** `inventory['summary']`: its counts, and its `validation` object (the
      empty map when absent). */
  datatype Summary = Summary(counts: Object, validation: Object)

  // ---------------------------------------------------------------------
  // Executive summary

  /** Label, key and suffix of each count line, in order. */
  const CountRows: seq<(string, string, string)> :=
    [ ("- **Custom files added:** ", "custom_files_count", ""),
      ("- **Dawn files modified:** ", "modified_dawn_files_count", ""),
      ("  - Files to revert to clean Dawn 15.4.0: ", "files_to_revert_count", " (non-English locales)"),
      ("  - Files to patch with customizations: ", "files_to_patch_modified_count", ""),
      ("- **Dawn files removed:** ", "removed_dawn_files_count", ""),
      ("  - Files to restore from Dawn 15.4.0: ", "files_to_restore_count", ""),
      ("  - Files to accept Dawn 15.4.0 versions: ", "files_to_accept_dawn_15_4_count", ""),
      ("    - Files to patch with customizations: ", "files_to_patch_deleted_count", "") ]

  /** `summary.get(key, 0)` as text: a missing count shows as 0, a stored
      count as its own decimal digits. */
  function CountText(counts: Object, key: string): (text: string)
    ensures key !in counts ==> text == "0"
    ensures key in counts && counts[key].Int? && counts[key].i >= 0 ==>
      AllDigits(text) && DigitsValue(text) == counts[key].i
  {
    Str(GetOr(counts, key, Int(0)))
  }

  function CountLine(counts: Object, row: (string, string, string)): string
  {
    row.0 + CountText(counts, row.1) + row.2
  }

  /** The executive summary: a heading, a blank line, one line per count in
      the order of `CountRows`, and a blank line. */
  function SummaryLines(counts: Object): (lines: seq<string>)
    ensures |lines| == |CountRows| + 3
    ensures lines[..2] == ["## Executive Summary", ""] && lines[|CountRows| + 2] == ""
    ensures forall k :: 0 <= k < |CountRows| ==> lines[k + 2] == CountLine(counts, CountRows[k])
  {
    ["## Executive Summary", ""]
    + [ CountLine(counts, CountRows[0]), CountLine(counts, CountRows[1]),
        CountLine(counts, CountRows[2]), CountLine(counts, CountRows[3]),
        CountLine(counts, CountRows[4]), CountLine(counts, CountRows[5]),
        CountLine(counts, CountRows[6]), CountLine(counts, CountRows[7]) ]
    + [""]
  }

  /** Each count line starts with its label text and, for a stored non-negative
      count, carries that count's digits; with no summary at all every line
      shows 0. */
  lemma {:induction false} SummaryShowsCounts(counts: Object, k: nat)
    requires k < |CountRows|
    ensures var line := SummaryLines(counts)[k + 2];
      var lead := CountRows[k].0; var key := CountRows[k].1; var suffix := CountRows[k].2;
      |line| >= |lead| + |suffix| &&
      line[..|lead|] == lead &&
      line[|lead|..|line| - |suffix|] == CountText(counts, key) &&
      (key !in counts ==> line == lead + "0" + suffix)
  {
    var lead, key, suffix := CountRows[k].0, CountRows[k].1, CountRows[k].2;
    var line := SummaryLines(counts)[k + 2];
    assert line == lead + CountText(counts, key) + suffix;
    assert line[..|lead|] == lead;
    assert line[|lead|..|line| - |suffix|] == CountText(counts, key);
  }

  // ---------------------------------------------------------------------
  // Validation

  const ModifiedFlag: string := "modified_equals_revert_plus_patch"
  const RemovedFlag: string := "removed_equals_restore_plus_accept"
  const ModifiedOk: string := "✓ Modified files = Revert + Patch (math checks out)"
  const ModifiedWarning: string := "✗ WARNING: Modified files don't equal Revert + Patch!"
  const RemovedOk: string := "✓ Removed files = Restore + Accept (math checks out)"
  const RemovedWarning: string := "✗ WARNING: Removed files don't equal Restore + Accept!"

  /** The validation block: nothing for an empty validation object, else a
      heading, a blank line, one verdict per check and a blank line. */
  function ValidationLines(validation: Object): seq<string>
  {
    if validation == map[] then []
    else
      ["### Validation", ""]
      + [if Truthy(Get(validation, ModifiedFlag)) then ModifiedOk else ModifiedWarning]
      + [if Truthy(Get(validation, RemovedFlag)) then RemovedOk else RemovedWarning]
      + [""]
  }

  /** The block is present exactly when the validation object is non-empty;
      then each check shows its ✓ line exactly when its flag is truthy and its
      ✗ WARNING line exactly when it is not. */
  lemma {:induction false} ValidationVerdicts(validation: Object)
    ensures ValidationLines(validation) == [] <==> validation == map[]
    ensures ModifiedOk in ValidationLines(validation) <==>
      validation != map[] && Truthy(Get(validation, ModifiedFlag))
    ensures ModifiedWarning in ValidationLines(validation) <==>
      validation != map[] && !Truthy(Get(validation, ModifiedFlag))
    ensures RemovedOk in ValidationLines(validation) <==>
      validation != map[] && Truthy(Get(validation, RemovedFlag))
    ensures RemovedWarning in ValidationLines(validation) <==>
      validation != map[] && !Truthy(Get(validation, RemovedFlag))
  {
    // The six lines the block can hold all differ in length.
    assert |ModifiedOk| == 51 && |ModifiedWarning| == 53;
    assert |RemovedOk| == 52 && |RemovedWarning| == 54;
    assert |"### Validation"| == 14;
  }

  /** The summary and validation lines of `main`, appended as it appends them. */
  method AppendSummary(lines: seq<string>, summary: Summary) returns (out: seq<string>)
    ensures out == lines + SummaryLines(summary.counts) + ValidationLines(summary.validation)
  {
    out := AppendCounts(lines, summary.counts);
    out := AppendValidation(out, summary.validation);
  }

  method AppendCounts(lines: seq<string>, counts: Object) returns (out: seq<string>)
    ensures out == lines + SummaryLines(counts)
  {
    var block := ["## Executive Summary", ""];
    block := block + [CountLine(counts, CountRows[0])];
    block := block + [CountLine(counts, CountRows[1])];
    block := block + [CountLine(counts, CountRows[2])];
    block := block + [CountLine(counts, CountRows[3])];
    block := block + [CountLine(counts, CountRows[4])];
    block := block + [CountLine(counts, CountRows[5])];
    block := block + [CountLine(counts, CountRows[6])];
    block := block + [CountLine(counts, CountRows[7])];
    block := block + [""];
    out := lines + block;
  }

  method AppendValidation(lines: seq<string>, validation: Object) returns (out: seq<string>)
    ensures out == lines + ValidationLines(validation)
  {
    out := lines;
    if validation != map[] {
      out := out + ["### Validation", ""];
      if Truthy(Get(validation, ModifiedFlag)) {
        out := out + [ModifiedOk];
      } else {
        out := out + [ModifiedWarning];
      }
      if Truthy(Get(validation, RemovedFlag)) {
        out := out + [RemovedOk];
      } else {
        out := out + [RemovedWarning];
      }
      out := out + [""];
    }
  }

  // ---------------------------------------------------------------------
  // Sorted file lists

  /** The paths numbered from 1, the `k`-th (from 0) as `k + 1`. */
  function NumberedPaths(paths: seq<string>): (lines: seq<string>)
    ensures |lines| == |paths|
    ensures forall k :: 0 <= k < |paths| ==> lines[k] == PathLine(k + 1, paths[k])
  {
    if paths == [] then []
    else NumberedPaths(paths[..|paths| - 1]) + [PathLine(|paths|, paths[|paths| - 1])]
  }

  const RevertIntro: seq<string> :=
    [ "## Files to Revert to Clean Dawn 15.4.0", "",
      "These files were modified but should be reverted to clean Dawn 15.4.0 versions",
      "because custom features only support English locale.", "" ]
  const RestoreHeading: string := "## Files to Restore from Dawn 15.4.0"
  const RestoreIntro: seq<string> :=
    [ RestoreHeading, "", "These Dawn theme files were deleted but should be restored from Dawn 15.4.0.", "" ]
  const NothingToRestore: string := "No theme files need to be restored."
  const PatchIntro: seq<string> :=
    [ "## Files to Patch with Customizations", "",
      "These dev/config files had customizations before deletion.",
      "Accept Dawn 15.4.0 version and patch in customizations from diff analysis.", "" ]

  /** A list of `main`: nothing for no files, else its introduction and the
      files in sorted order, numbered from 1, then a blank line. */
  function SortedList(intro: seq<string>, files: seq<string>): seq<string>
  {
    if files == [] then [] else intro + NumberedPaths(Sort(files)) + [""]
  }

  /** The restore list is the one list that says so when it is empty. */
  function RestoreList(files: seq<string>): seq<string>
  {
    if files == [] then [RestoreHeading, "", NothingToRestore, ""] else SortedList(RestoreIntro, files)
  }

  /** The three lists, given `files_to_revert_to_clean`,
      `files_to_restore_from_dawn` and `files_to_patch_with_customizations`. */
  function FileListsLines(toRevert: seq<string>, toRestore: seq<string>, toPatch: seq<string>): seq<string>
  {
    SortedList(RevertIntro, toRevert) + RestoreList(toRestore) + SortedList(PatchIntro, toPatch)
  }

  /** A non-empty list shows every file as often as the inventory lists it,
      in sorted order, file `k` of the sorted order numbered `k + 1`. */
  lemma {:induction false} SortedListShowsFiles(intro: seq<string>, files: seq<string>)
    requires files != []
    ensures var lines := SortedList(intro, files);
      |lines| == |intro| + |files| + 1 &&
      lines[..|intro|] == intro &&
      Sorted(Sort(files)) && multiset(Sort(files)) == multiset(files) &&
      forall k :: 0 <= k < |files| ==> lines[|intro| + k] == PathLine(k + 1, Sort(files)[k])
  {
    var lines := SortedList(intro, files);
    var listed := NumberedPaths(Sort(files));
    assert |Sort(files)| == |files| by {
      assert |multiset(Sort(files))| == |multiset(files)|;
    }
    assert lines == intro + listed + [""];
    forall k | 0 <= k < |files|
      ensures lines[|intro| + k] == PathLine(k + 1, Sort(files)[k])
    {
      assert lines[|intro| + k] == listed[k];
    }
  }

  /** "No theme files need to be restored." appears exactly when there is no
      file to restore; the heading appears in either case. */
  lemma {:induction false} RestoreListMessage(files: seq<string>)
    ensures NothingToRestore in RestoreList(files) <==> files == []
    ensures RestoreList(files)[0] == RestoreHeading
  {
    if files != [] {
      var listed := NumberedPaths(Sort(files));
      forall k | 0 <= k < |listed|
        ensures listed[k] != NothingToRestore
      {
        PathLineIsNot(k + 1, Sort(files)[k], NothingToRestore);
      }
      assert RestoreList(files) == RestoreIntro + listed + [""];
      assert NothingToRestore !in RestoreIntro + [""];
    }
  }

  /** The three lists of `main`, appended as it appends them. */
  method AppendFileLists(lines: seq<string>, toRevert: seq<string>, toRestore: seq<string>, toPatch: seq<string>)
    returns (out: seq<string>)
    ensures out == lines + FileListsLines(toRevert, toRestore, toPatch)
  {
    out := AppendSortedList(lines, RevertIntro, toRevert);
    out := AppendRestoreList(out, toRestore);
    out := AppendSortedList(out, PatchIntro, toPatch);
    AppendAssoc(lines, SortedList(RevertIntro, toRevert), RestoreList(toRestore));
    AppendAssoc(lines, SortedList(RevertIntro, toRevert) + RestoreList(toRestore), SortedList(PatchIntro, toPatch));
  }

  /** The restore list, or its heading and the message when it is empty. */
  method AppendRestoreList(lines: seq<string>, toRestore: seq<string>) returns (out: seq<string>)
    ensures out == lines + RestoreList(toRestore)
  {
    if toRestore != [] {
      out := AppendSortedList(lines, RestoreIntro, toRestore);
    } else {
      out := lines + [RestoreHeading, "", NothingToRestore, ""];
    }
  }

  /** One list: its introduction, then `enumerate(sorted(files), 1)`. */
  method AppendSortedList(lines: seq<string>, intro: seq<string>, files: seq<string>) returns (out: seq<string>)
    ensures out == lines + SortedList(intro, files)
  {
    out := lines;
    if files != [] {
      out := AppendNumberedPaths(out + intro, Sort(files));
      out := out + [""];
      AppendAssoc(lines, intro, NumberedPaths(Sort(files)));
      AppendAssoc(lines, intro + NumberedPaths(Sort(files)), [""]);
    }
  }

  /** The paths numbered from 1, appended to `lines`. */
  method AppendNumberedPaths(lines: seq<string>, paths: seq<string>) returns (out: seq<string>)
    ensures out == lines + NumberedPaths(paths)
  {
    out := lines;
    for idx := 0 to |paths|
      invariant out == lines + NumberedPaths(paths[..idx])
    {
      assert NumberedPaths(paths[..idx + 1]) == NumberedPaths(paths[..idx]) + [PathLine(idx + 1, paths[idx])] by {
        assert paths[..idx + 1][..idx] == paths[..idx];
      }
      out := out + [NatToString(idx + 1) + ". `" + paths[idx] + "`"];
    }
    assert paths[..|paths|] == paths;
  }
}
