# Dawn upgrade analysis: version configuration and report layout

This project models two scripts of the Dawn theme upgrade analysis.

`scripts/version_config.py` answers questions about the upgrade's version configuration:
- the four git references, each with a fixed default;
- the three version records;
- single `section.field` values for the Makefiles;
- the exit status of the script when it runs as a command.

The configuration file is an input that is either missing or already parsed (`VersionConfig.ConfigFile`).

`scripts/generate-diff-documentation.py` turns the change inventory into a markdown report. The model covers the parts of the report that depend on the inventory:
- the key projection of change items;
- the custom-files section, with categories, numbering and the `N/A` default;
- the modified-files section:
  - the safe patch filename;
  - which files are reverted and which are patched;
  - grouping patch files by parent directory in sorted order, with one running counter;
  - per-file change lines and integration-point truncation;
- the removed-files partition into restore, patch-with-customisations and accept-clean;
- the version line of the settings summary;
- in `main`: the executive summary counts, the validation verdicts, and the three sorted file lists.

The report is a `seq<string>` of lines. The JSON inputs are datatypes and maps. Every `format_*` function that builds its `lines` list by appending inside loops is a `method` with a loop. Each method is proved equal to a specification function, and the properties the report promises are lemmas about those functions. The dictionary comprehensions that select files are functions (`Filter`, `Dedup`, `Sort`). Python dicts keep insertion order, so wherever the report iterates a dict, the model keeps the keys as a sequence.

Modules:
- Shared building blocks:
  - `Sequences`: filter, subsequence, deduplication.
  - `Strings`: decimal digits, `split`/`join`, `replace`, slicing, `capitalize`, `Path.parent`.
  - `StringOrder`: Python's string order and `sorted`.
  - `JsonValues`: JSON scalars, `str()`, truthiness, `dict.get`.
- `VersionConfig`: the version configuration script.
- One module per report section of the report script:
  - `ReportJsonItems`
  - `ReportCustomFiles`
  - `ReportModifiedFiles`
  - `ReportRemovedFiles`
  - `ReportSettings`
  - `ReportMain`

## Model

| member | source | states |
|---|---|---|
| VersionConfig.GetGitRefs | scripts/version_config.py:33-43 | A missing file fails with not-found before any lookup. Otherwise the answer has exactly the keys `current`, `comparison`, `destination` and `upstream_remote`. Each is the `git_config` field `current_branch`, `comparison_ref`, `destination_ref` or `upstream_remote` when that field is present. When the field is absent it is `HEAD`, `v10.0.0`, `upstream/main` or `upstream` respectively. |
| VersionConfig.GitRefsWithoutGitConfig | scripts/version_config.py:36-43 | A configuration without `git_config` yields exactly the four default refs. |
| VersionConfig.GetVersionInfo | scripts/version_config.py:46-54 | A missing file fails with not-found. Otherwise the answer has exactly the keys `current`, `comparison` and `destination`. Each is bound to the `<name>_version` object, or to the empty object when that is absent. |
| VersionConfig.GetVersionValue | scripts/version_config.py:57-78 | A missing file fails with not-found. Every other failure is `Unknown key: <key>`. |
| VersionConfig.VersionValueOfSectionField | scripts/version_config.py:70-78 | A key `section.field` (each part without a dot) succeeds exactly when `section` is one of the three version records and `field` is in `<section>_version`. The value is then `str` of that field. |
| VersionConfig.VersionValueNeedsOneDot | scripts/version_config.py:70-78 | A key whose dot count is not one (`a`, `a.b.c`) is rejected as unknown, whatever the configuration holds. |
| VersionConfig.ExitStatus | scripts/version_config.py:81-107 | With a key argument, the status is 0 exactly when the lookup succeeds, and 1 otherwise. Without an argument it is 0, even when the file is missing. |
| Strings.Split | scripts/version_config.py:70 | `key.split('.')` has one more part than the key has dots. No part contains a dot. |
| Strings.SplitJoin | scripts/version_config.py:70 | Joining the parts of a split with the separator gives back the key. |
| Strings.JoinSplit | scripts/version_config.py:70 | Splitting parts joined with the separator gives back the parts, when none of them contains it. |
| Strings.SplitInTwo | scripts/version_config.py:70-72 | `a + "." + b`, with no dot in `a` or `b`, splits into exactly `[a, b]`. |
| ReportJsonItems.Project | scripts/generate-diff-documentation.py:27-30 | The projected keys are the whitelist filtered to the keys the item has. Every value is the item's own value for its key. |
| ReportJsonItems.DisplayKeysDistinct | scripts/generate-diff-documentation.py:28 | The whitelist of display keys has no repeats. |
| ReportJsonItems.DisplayItemKeys | scripts/generate-diff-documentation.py:26-31 | A displayed item has distinct keys. They are exactly the whitelist keys present in the item, in whitelist order, with unchanged values. |
| ReportJsonItems.FormatJsonItems | scripts/generate-diff-documentation.py:21-32 | There is one displayed item per input item, in order, and each is the projection of its item onto the whitelist. |
| ReportSettings.VersionLine | scripts/generate-diff-documentation.py:62 | The line starts with `**Version Change:** `. |
| ReportSettings.VersionLines | scripts/generate-diff-documentation.py:58-62 | At most one version line. It appears exactly when `v10_custom` is present in the theme info changes and is non-empty, and then it is that record's version line. |
| ReportSettings.VersionLineShowsBoth | scripts/generate-diff-documentation.py:62 | When the record holds both versions as text, the old and the new version can each be read back from the line, old first. |
| ReportSettings.VersionLineShowsNone | scripts/generate-diff-documentation.py:62 | A missing `old` shows as `None` right after the label, and a missing `new` shows as `None` at the end of the line. |
| Strings.Capitalize | scripts/generate-diff-documentation.py:152 | The length is kept. The first character is the upper-case form of the input's first character, and every later character is the lower-case form of the input's character at that position. |
| ReportCustomFiles.EntriesLines | scripts/generate-diff-documentation.py:154-158 | Each file of a category contributes exactly four lines. |
| ReportCustomFiles.EntryNumbering | scripts/generate-diff-documentation.py:154-158 | The i-th file of a category is numbered i+1 and shows its path in bold, its type, and its description (`N/A` when absent). |
| ReportCustomFiles.SkipsEmptyCategories | scripts/generate-diff-documentation.py:150-151 | The custom-files lines equal the lines of only the categories that have files. |
| ReportCustomFiles.CategoryBlockSize | scripts/generate-diff-documentation.py:150-159 | An empty category contributes nothing. A non-empty one contributes 4 lines per file plus 3, and starts with its capitalized name. |
| ReportCustomFiles.FormatCustomFiles | scripts/generate-diff-documentation.py:142-161 | The loop over the categories produces exactly the specified custom-files lines. |
| ReportCustomFiles.FormatCategory | scripts/generate-diff-documentation.py:151-159 | The block of one non-empty category is its specified lines. |
| ReportModifiedFiles.SafeFilename | scripts/generate-diff-documentation.py:217 | Each `/` and `\` becomes `-` and every other character is kept, at the same position. No separator is left. |
| ReportModifiedFiles.PatchFileInPatchDir | scripts/generate-diff-documentation.py:217-218 | Every patch file lies directly in `.upgrade-analysis/patches`. |
| ReportModifiedFiles.RevertPaths | scripts/generate-diff-documentation.py:185-192 | The revert list is strictly sorted. It holds exactly the paths that are both in `files_to_revert_to_clean` and modified files. |
| ReportModifiedFiles.PatchOrder | scripts/generate-diff-documentation.py:186 | The patch files are distinct. They are exactly the paths both in `files_to_patch_modified` and modified files, and appear in that list in the same order. When that list has no repeats, the patch files are exactly its entries that are modified files, in its order. |
| ReportModifiedFiles.PatchOrderFirstOccurrence | scripts/generate-diff-documentation.py:186 | The patch files are ordered by their first occurrence in `files_to_patch_modified`: of any two, the earlier one occurs first in that list. |
| Sequences.DedupMembers | scripts/generate-diff-documentation.py:186 | Building a dict from a list's elements keeps exactly the elements of the list. |
| Sequences.DedupFirstOccurrence | scripts/generate-diff-documentation.py:186 | Building a dict from a list's elements keeps each element once, in the order of its first occurrence in the list. |
| Sequences.FilterFirstIndex | scripts/generate-diff-documentation.py:186 | Keeping only some elements preserves the order of their first occurrences. |
| ReportModifiedFiles.Items | scripts/generate-diff-documentation.py:185-186 | Each selected path is paired with its own modified-file record, in order. |
| ReportModifiedFiles.Parents | scripts/generate-diff-documentation.py:208 | One parent directory per entry, in order. |
| Strings.Parent | scripts/generate-diff-documentation.py:208 | The parent is `.` for a bare name, `/` for a file at the root, and otherwise the text before the last `/`. |
| Strings.ParentOfChild | scripts/generate-diff-documentation.py:208 | The parent of `dir/name` is `dir` when `name` holds no slash. |
| ReportModifiedFiles.GroupByDir | scripts/generate-diff-documentation.py:206-211 | The dictionary filled in the loop has exactly the parent directories as keys, in first-seen order. Each key maps to the entries of that directory, in input order. |
| ReportModifiedFiles.FlattenPermutation | scripts/generate-diff-documentation.py:213-216 | Walking distinct directories lists exactly the entries under those directories, each once. |
| ReportModifiedFiles.PatchListing | scripts/generate-diff-documentation.py:205-240 | The directories are strictly sorted and are exactly the parents of the patch files. Walking them lists every patch file exactly once. The file headings read, in order, 1, 2, … with one counter across all directories. |
| ReportModifiedFiles.HeadingIsHeading | scripts/generate-diff-documentation.py:219 | Every file heading is recognised as a heading. |
| ReportModifiedFiles.DetailsAreNotHeadings | scripts/generate-diff-documentation.py:215-238 | Detail lines, integration-point lines and directory lines are never file headings. |
| ReportModifiedFiles.FileHeading | scripts/generate-diff-documentation.py:219-238 | The lines of one patch file contain exactly one file heading: its own, with its number. |
| ReportModifiedFiles.PatchFileOneHeading | scripts/generate-diff-documentation.py:219-238 | Every patch file shows exactly its own heading. |
| ReportModifiedFiles.FilesHeadings | scripts/generate-diff-documentation.py:216-239 | The files of one directory show their headings in order, numbered consecutively from the running counter. |
| ReportModifiedFiles.DirBlockHeadings | scripts/generate-diff-documentation.py:214-240 | The same holds for a directory block with its directory line and its closing blank line. |
| ReportModifiedFiles.DirsHeadings | scripts/generate-diff-documentation.py:213-240 | Across all directories the headings are those of the walked entries, numbered consecutively from the start. |
| ReportModifiedFiles.ListedPoints | scripts/generate-diff-documentation.py:235-236 | The listed points are numbered from 1 in order. |
| ReportModifiedFiles.PointLinesShape | scripts/generate-diff-documentation.py:232-238 | The block is a count line and then at most the first two points, numbered 1 and 2. Only when more than two exist, one closing line numbered `len - 1` follows, telling how many were left out. |
| ReportModifiedFiles.AsWrittenRepeatsNumber | scripts/generate-diff-documentation.py:237-238 | As the report prints them, three points give two lines numbered 2. |
| ReportModifiedFiles.ListedPointNumber | scripts/generate-diff-documentation.py:236-238 | Two listed lines with the same text are equal exactly when their numbers are equal. |
| ReportModifiedFiles.IntendedDiffersOnlyInNumber | scripts/generate-diff-documentation.py:232-238 | The printed lines and the lines with the closing line numbered 3 have the same length and the same first three lines. They are equal exactly when there are at most two points, or exactly four. |
| ReportModifiedFiles.MoreLineContinuesNumbering | scripts/generate-diff-documentation.py:235-238 | With the closing line numbered 3 (`IntendedPointLines`), more than two points give lines numbered 1, 2 and 3, the last saying `... and <n-2> more`. |
| ReportModifiedFiles.ExampleContent | scripts/generate-diff-documentation.py:228 | The example content is a prefix of the change content (empty when absent) of at most 60 characters. It is the whole content when that fits. |
| Strings.Truncate | scripts/generate-diff-documentation.py:228 | `s[:n]` is a prefix of `s` of length `min(|s|, n)`. |
| ReportModifiedFiles.ChangeLinesShape | scripts/generate-diff-documentation.py:221-230 | Change lines appear exactly when there are changes. There are 3 of them, or 4 when there is more than one change. They give the number of changes, name the file's patch file and show the first change as the example. With more than one change, a last line points to the patch file for all of them. |
| ReportModifiedFiles.RevertEntriesLines | scripts/generate-diff-documentation.py:192-198 | Each revert entry contributes exactly four lines. |
| ReportModifiedFiles.RevertEntryNumbering | scripts/generate-diff-documentation.py:192-198 | The k-th revert entry is numbered k+1. It shows its path in bold, the revert action, its reason (the fixed English-locale default when absent) and its patch file. |
| ReportModifiedFiles.FormatModifiedFiles | scripts/generate-diff-documentation.py:164-242 | The method produces exactly the specified modified-files lines: the header, then the revert section, then the patch section. |
| ReportModifiedFiles.AppendRevertSection | scripts/generate-diff-documentation.py:188-199 | The revert section is omitted when no file is reverted. Otherwise it is its header, four lines per file and a blank line. |
| ReportModifiedFiles.AppendPatchSection | scripts/generate-diff-documentation.py:201-240 | The patch section is omitted when no file is patched. Otherwise it is its header and then the directory blocks in sorted directory order. |
| ReportModifiedFiles.AppendDirectories | scripts/generate-diff-documentation.py:213-240 | The loop over sorted directories, with the file counter carried across them, appends the specified directory blocks. |
| ReportModifiedFiles.FormatDirectory | scripts/generate-diff-documentation.py:215-240 | One directory block, and the counter advanced by its number of files. |
| ReportModifiedFiles.FormatPatchFile | scripts/generate-diff-documentation.py:219-238 | The lines of one patch file: heading, action, change lines and integration points. |
| ReportModifiedFiles.AppendChangeLines | scripts/generate-diff-documentation.py:221-230 | Appends the specified change lines. |
| ReportModifiedFiles.AppendPointLines | scripts/generate-diff-documentation.py:232-238 | Appends the specified integration-point lines. |
| ReportModifiedFiles.AppendListedPoints | scripts/generate-diff-documentation.py:235-236 | The enumerate loop appends the points numbered from 1. |
| Strings.NatToStringRoundTrip | scripts/generate-diff-documentation.py:219 | The decimal text of a counter or a count reads back as that number. |
| ReportRemovedFiles.Selections | scripts/generate-diff-documentation.py:254-265 | Each list holds exactly the removed files whose flags select it: `to_restore` those with `should_restore`, `to_accept_dawn` those with `accept_dawn_15_4`. `to_patch` and `to_accept_clean` are those accepted with and without `has_customizations`. Each keeps the order of the removed list. |
| ReportRemovedFiles.AcceptDawnSplit | scripts/generate-diff-documentation.py:263-265 | `to_patch` and `to_accept_clean` are disjoint, and together they are exactly `to_accept_dawn`, counting repeats. |
| ReportRemovedFiles.RestoreLines | scripts/generate-diff-documentation.py:259-260 | The k-th file to restore is listed as number k+1. |
| ReportRemovedFiles.DescribedLines | scripts/generate-diff-documentation.py:271-272 | The k-th listed file is numbered k+1 and shows its description. |
| ReportRemovedFiles.NumberedIsNotMessage | scripts/generate-diff-documentation.py:260-281 | No numbered line can be the "no files removed" message. |
| ReportRemovedFiles.ListsAreNotMessage | scripts/generate-diff-documentation.py:259-281 | No numbered list contains the "no files removed" message. |
| ReportRemovedFiles.NoRemovedMessage | scripts/generate-diff-documentation.py:253-281 | An empty removed list yields only the header and "No Dawn files were removed.". That message appears exactly when nothing was removed. |
| ReportRemovedFiles.RestoreSectionIsNotMessage | scripts/generate-diff-documentation.py:257-261 | The restore section never contains the message. |
| ReportRemovedFiles.PatchSectionIsNotMessage | scripts/generate-diff-documentation.py:267-273 | The patch section never contains the message. |
| ReportRemovedFiles.CleanSectionIsNotMessage | scripts/generate-diff-documentation.py:275-279 | The accept-clean section never contains the message. |
| ReportRemovedFiles.FormatRemovedFiles | scripts/generate-diff-documentation.py:245-283 | The method produces exactly the specified removed-files lines. |
| ReportRemovedFiles.AppendRestoreSection | scripts/generate-diff-documentation.py:257-261 | The restore section: nothing when no file is restored, else its heading, the numbered files and a blank line. |
| ReportRemovedFiles.AppendAcceptSections | scripts/generate-diff-documentation.py:263-279 | The patch and accept-clean sections, each omitted when its list is empty. |
| ReportRemovedFiles.AppendDescribed | scripts/generate-diff-documentation.py:271-272 | The enumerate loop appends the files numbered from 1 with their descriptions. |
| ReportMain.CountText | scripts/generate-diff-documentation.py:410-417 | A missing count shows as `0`. A stored non-negative count shows as decimal digits that read back as that count. |
| ReportMain.SummaryLines | scripts/generate-diff-documentation.py:407-418 | The summary is the heading `## Executive Summary` and a blank line, then the eight count lines in order, then a blank line. |
| ReportMain.SummaryShowsCounts | scripts/generate-diff-documentation.py:410-417 | Each count line is its label, then the count's text, then its suffix. A missing count reads `0`. |
| ReportMain.ValidationVerdicts | scripts/generate-diff-documentation.py:420-433 | The validation block is empty exactly when the validation object is empty. For each of the two checks, the ✓ line appears exactly when the object is non-empty and the flag is truthy. The ✗ WARNING line appears exactly when the object is non-empty and the flag is not truthy. |
| ReportMain.AppendSummary | scripts/generate-diff-documentation.py:406-433 | Appends the summary lines and then the validation block. |
| ReportMain.AppendCounts | scripts/generate-diff-documentation.py:407-418 | Appends the specified summary lines. |
| ReportMain.AppendValidation | scripts/generate-diff-documentation.py:420-433 | Appends the specified validation block. |
| Strings.PathLineIsNot | scripts/generate-diff-documentation.py:483 | A numbered file line starts with a digit, so it is never a line of prose such as an empty-list message. |
| ReportMain.NumberedPaths | scripts/generate-diff-documentation.py:482-483 | The k-th path is listed as number k+1. |
| StringOrder.Sort | scripts/generate-diff-documentation.py:482 | `sorted` yields an ordered permutation of its input, and keeps distinct inputs distinct. |
| StringOrder.BelowTotal | scripts/generate-diff-documentation.py:214 | Of two different strings, one sorts before the other. |
| StringOrder.BelowTransitive | scripts/generate-diff-documentation.py:214 | The string order is transitive. |
| ReportMain.SortedListShowsFiles | scripts/generate-diff-documentation.py:474-484 | A non-empty list is its introduction, then every file once in sorted order numbered from 1, then a blank line. |
| ReportMain.RestoreListMessage | scripts/generate-diff-documentation.py:486-500 | The restore list always starts with its heading. "No theme files need to be restored." appears exactly when there is nothing to restore. |
| ReportMain.AppendFileLists | scripts/generate-diff-documentation.py:474-512 | Appends the revert, restore and patch lists in that order. |
| ReportMain.AppendRestoreList | scripts/generate-diff-documentation.py:486-500 | Appends the specified restore list, or its empty message. |
| ReportMain.AppendSortedList | scripts/generate-diff-documentation.py:474-484 | Appends the specified sorted list. |
| ReportMain.AppendNumberedPaths | scripts/generate-diff-documentation.py:482-483 | The enumerate loop appends the paths numbered from 1. |

## Left out

- Reading and parsing JSON (`json.load`) and writing JSON (`json.dumps`). Inputs are already-parsed values. `FormatJsonItems` returns the projected key/value lists, not the indented JSON text.
- `argparse`, directory creation, writing the report file and the progress messages of `main`. These are I/O.
- scripts/extract-dawn-files.py is not part of this model. It runs `git show` and writes the files it extracts.
- scripts/extract-json-changes.py is not part of this model. It only reads JSON files and writes JSON files with `json.dump`, and runs no `git`.
- The JSON-change extraction block inside `main` (scripts/generate-diff-documentation.py:302-346) is left out for the same reason. It only opens files and writes JSON with `json.dump`.
- The fixed paragraphs are left out because they decide nothing:
  - `format_settings_data_summary`, `format_locale_summary` and `format_locale_schema_summary`;
  - the fixed text of `format_settings_summary` and of `main` (the patch-location, action-category and integration-point paragraphs).
- The classifier that produces the inventory, with its counts, flags and validation booleans, is not in these scripts. Those values are inputs here.
- `by_dir` at scripts/generate-diff-documentation.py:173-178 is filled and never read, so it has no effect on the report.
- `"\n".join(lines)` at the end of each section is not modelled. Each section is its list of lines.
- `Path(filepath).parent` is modelled for POSIX paths as the text before the last `/`, `/` at the root, and `.` without a slash. Repeated or trailing slashes and `.` components are not normalised: `Path("a/./b").parent` is `a`, where the model gives `a/.`.
- `str.capitalize` is modelled for ASCII letters only. Python also changes the case of other Unicode letters.
- `str()` is modelled for the JSON scalars: strings, integers, booleans and null. Floats, lists and objects are not modelled as values, and neither is their text. Integration points are modelled as strings.
- Some inputs are typed more narrowly than the scripts accept, so their failure paths are not modelled:
  - `Change.content` is a string or absent. A `content` that is null makes `[:60]` raise `TypeError` at scripts/generate-diff-documentation.py:228.
  - The `path` of custom and removed files, and the `type` of custom files, are strings. Other JSON values would be printed with `str()` by the f-strings at scripts/generate-diff-documentation.py:155-157, 260 and 272.
  - `Config` maps each top-level key to an object. A `git_config` or `*_version` value that is not an object raises `AttributeError` at scripts/version_config.py:38-43, or makes the `in` test at scripts/version_config.py:75 a substring or element test.
- Required keys (`file_info['path']`, `file_info['type']`) are fields of the record. The `KeyError` raised when they are missing is not modelled.
- `ReportMain.Summary` keeps `validation` apart from the counts. In the source it is one more key of the same `summary` object.
- An absent `theme_info_changes` is modelled as the empty map, which the source treats the same way.
- `VersionConfig.ExitStatus` without a key argument: the printed configuration and refs are output and are not modelled. A missing configuration prints its error there and the script still exits 0, as scripts/version_config.py:96-106 does.
- `VersionConfig.ExitStatus` models only the not-found and unknown-key failures. A configuration file that is not valid JSON is not represented. With a key argument it also exits 1, because the JSON decoding error is a `ValueError` that scripts/version_config.py:91-93 catches. Without an argument it escapes uncaught, since scripts/version_config.py:105-106 catch only a missing file.
- `ReportMain.CountText` states the digits only for non-negative integer counts. Other stored values show as their `str()`, which is not otherwise constrained.
- The restore list and the accept lists of the removed files may overlap when a file carries both flags. The source does not exclude this, and neither does the model.

## Findings

| source | as written | input that shows it | evidently intended | confidence | as-written member | corrected member |
|---|---|---|---|---|---|---|
| scripts/generate-diff-documentation.py:237-238 | The closing line of the integration points is numbered `len(integration_points) - 1`, after only the first two points are listed. | Three integration points `a`, `b`, `c`: the lines are `1. a`, `2. b`, `2. ... and 1 more`, so number 2 is repeated. With five points the closing line is numbered 4 after 1 and 2. | The closing line continues the list as item 3. | not executed; medium | ReportModifiedFiles.AsWrittenRepeatsNumber | ReportModifiedFiles.MoreLineContinuesNumbering |
