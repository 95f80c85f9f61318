/**
  `format_modified_files` of scripts/generate-diff-documentation.py: the
  "Modified Dawn Files" section. Files the inventory marks for reverting are
  listed in sorted order with their reason and patch file; files marked for
  patching are grouped by parent directory, the directories in sorted order,
  with one running counter across all directories.
*/
module ReportModifiedFiles {
  import opened JsonValues
  import opened Strings
  import opened Sequences
  import opened StringOrder

  /** One entry of a modified file's `changes` list. */
  datatype Change = Change(line: Option<Scalar>, changeType: Option<Scalar>, content: Option<string>)

  /** A value of `inventory['modified_dawn_files']`. An absent `changes` or
      `integration_points` key is the empty list. */
  datatype ModifiedFile = ModifiedFile(reason: Option<Scalar>, changes: seq<Change>, integrationPoints: seq<string>)

  /** A `(filepath, file_info)` pair of a dict's `items()`. */
  type Entry = (string, ModifiedFile)

  /** The parts of the inventory this section reads. */
  datatype Inventory = Inventory(
    modified: map<string, ModifiedFile>,
    filesToRevert: seq<string>,
    filesToPatch: seq<string>)

  const Header: seq<string> :=
    ["## Modified Dawn Files\n", "Dawn 10.0.0 files that were modified with custom changes.\n"]
  const RevertHeader: seq<string> :=
    [ "### Files to REVERT to Clean Dawn 15.4.0",
      "These files should be reverted to clean Dawn 15.4.0 versions.",
      "Patch files show what customizations are being removed (lines with `-`).\n" ]
  const PatchHeader: seq<string> :=
    [ "### Files to PATCH_MODIFIED (Apply Customizations)",
      "These files need custom changes applied to Dawn 15.4.0 versions.\n" ]
  const DefaultReason: string := "Non-English locale - custom features only support English"
  const PatchDir: string := ".upgrade-analysis/patches"

  // ---------------------------------------------------------------------
  // Patch file names

  /** `filepath.replace('/', '-').replace('\\', '-')`: every separator becomes
      a dash and every other character is kept. */
  function SafeFilename(path: string): (safe: string)
    ensures |safe| == |path|
    ensures forall i :: 0 <= i < |path| ==>
      safe[i] == if path[i] == '/' || path[i] == '\\' then '-' else path[i]
    ensures '/' !in safe && '\\' !in safe
  {
    ReplaceChar(ReplaceChar(path, '/', '-'), '\\', '-')
  }

  function PatchFile(path: string): string
  {
    PatchDir + "/" + SafeFilename(path) + ".patch"
  }

  /** Every patch file lies directly in the patches directory, whatever
      directories its source path has. */
  lemma {:induction false} PatchFileInPatchDir(path: string)
    ensures Parent(PatchFile(path)) == PatchDir
  {
    var name := SafeFilename(path) + ".patch";
    assert '/' !in ".patch";
    assert forall i :: 0 <= i < |name| ==> name[i] != '/' by {
      forall i | 0 <= i < |name|
        ensures name[i] != '/'
      {
        if i < |SafeFilename(path)| {
          assert name[i] == SafeFilename(path)[i];
        } else {
          assert name[i] == ".patch"[i - |SafeFilename(path)|];
        }
      }
    }
    assert PatchFile(path) == PatchDir + "/" + name;
    ParentOfChild(PatchDir, name);
  }

  // ---------------------------------------------------------------------
  // Which files the two lists show

  /** The paths of `sorted(revert_files.items())`, where `revert_files` holds
      the entries of `files_to_revert_to_clean` that are modified files. */
  function RevertPaths(inv: Inventory): (paths: seq<string>)
    ensures StrictlySorted(paths)
    ensures forall f :: f in paths <==> f in inv.filesToRevert && f in inv.modified
  {
    var isModified := f => f in inv.modified;
    var keys := Dedup(Filter(inv.filesToRevert, isModified));
    FilterMembers(inv.filesToRevert, isModified);
    DedupProperties(Filter(inv.filesToRevert, isModified));
    SortDistinct(keys);
    Sort(keys)
  }

  /** The keys of `patch_files`, in the order the dict received them: each
      entry of `files_to_patch_modified` that is a modified file, at its
      first occurrence. */
  function PatchOrder(inv: Inventory): (order: seq<string>)
    ensures NoDups(order)
    ensures forall f :: f in order <==> f in inv.filesToPatch && f in inv.modified
    ensures IsSubseq(order, inv.filesToPatch)
    ensures NoDups(inv.filesToPatch) ==> order == Filter(inv.filesToPatch, f => f in inv.modified)
  {
    var isModified := f => f in inv.modified;
    var kept := Filter(inv.filesToPatch, isModified);
    var order := Dedup(kept);
    DedupProperties(kept);
    FilterMembers(inv.filesToPatch, isModified);
    FilterSubseq(inv.filesToPatch, isModified);
    SubseqTransitive(order, kept, inv.filesToPatch);
    assert NoDups(inv.filesToPatch) ==> order == kept by {
      if NoDups(inv.filesToPatch) {
        SubseqOfDistinct(kept, inv.filesToPatch);
        DedupDistinct(kept);
      }
    }
    order
  }

  /** The patch files keep the order of their first occurrence in
      `files_to_patch_modified`, as the dict comprehension inserts them. */
  lemma {:induction false} PatchOrderFirstOccurrence(inv: Inventory)
    ensures forall f :: f in PatchOrder(inv) ==> f in inv.filesToPatch
    ensures var order := PatchOrder(inv);
      forall i, j :: 0 <= i < j < |order| ==>
        FirstIndex(inv.filesToPatch, order[i]) < FirstIndex(inv.filesToPatch, order[j])
  {
    var isModified := f => f in inv.modified;
    var kept := Filter(inv.filesToPatch, isModified);
    var order := PatchOrder(inv);
    assert order == Dedup(kept);
    DedupFirstOccurrence(kept);
    forall i, j | 0 <= i < j < |order|
      ensures FirstIndex(inv.filesToPatch, order[i]) < FirstIndex(inv.filesToPatch, order[j])
    {
      FilterFirstIndex(inv.filesToPatch, isModified, order[i], order[j]);
    }
  }

  /** Each path with its record. */
  function Items(paths: seq<string>, modified: map<string, ModifiedFile>): (items: seq<Entry>)
    requires forall f :: f in paths ==> f in modified
    ensures |items| == |paths|
    ensures forall i :: 0 <= i < |paths| ==> items[i] == (paths[i], modified[paths[i]])
  {
    if paths == [] then []
    else
      var last := paths[|paths| - 1];
      Items(paths[..|paths| - 1], modified) + [(last, modified[last])]
  }

  /** `sorted(revert_files.items())` */
  function RevertItems(inv: Inventory): seq<Entry>
  {
    Items(RevertPaths(inv), inv.modified)
  }

  /** `patch_files.items()` */
  function PatchItems(inv: Inventory): seq<Entry>
  {
    Items(PatchOrder(inv), inv.modified)
  }

  // ---------------------------------------------------------------------
  // Grouping by parent directory

  function Parents(entries: seq<Entry>): (ps: seq<string>)
    ensures |ps| == |entries|
    ensures forall i :: 0 <= i < |entries| ==> ps[i] == Parent(entries[i].0)
  {
    if entries == [] then [] else Parents(entries[..|entries| - 1]) + [Parent(entries[|entries| - 1].0)]
  }

  /** The keys of `patch_by_dir` in insertion order. */
  function Dirs(entries: seq<Entry>): seq<string>
  {
    Dedup(Parents(entries))
  }

  function InDir(d: string): Entry -> bool
  {
    (e: Entry) => Parent(e.0) == d
  }

  function InDirs(ds: seq<string>): Entry -> bool
  {
    (e: Entry) => Parent(e.0) in ds
  }

  /** `patch_by_dir[d]`: the entries whose path has parent `d`, in order. */
  function Group(entries: seq<Entry>, d: string): seq<Entry>
  {
    Filter(entries, InDir(d))
  }

  /** The entries as the section lists them: directory after directory. */
  function Flatten(ds: seq<string>, entries: seq<Entry>): seq<Entry>
  {
    if ds == [] then [] else Flatten(ds[..|ds| - 1], entries) + Group(entries, ds[|ds| - 1])
  }

  lemma {:induction false} DirsStep(entries: seq<Entry>, i: nat)
    requires i < |entries|
    ensures Dirs(entries[..i + 1]) ==
      var ds := Dirs(entries[..i]);
      if Parent(entries[i].0) in ds then ds else ds + [Parent(entries[i].0)]
  {
    var ps := Parents(entries[..i]);
    var p := Parent(entries[i].0);
    assert entries[..i + 1][..i] == entries[..i];
    assert Parents(entries[..i + 1]) == ps + [p];
    assert (ps + [p])[..|ps|] == ps;
  }

  lemma {:induction false} GroupStep(entries: seq<Entry>, i: nat, d: string)
    requires i < |entries|
    ensures Group(entries[..i + 1], d) ==
      Group(entries[..i], d) + if Parent(entries[i].0) == d then [entries[i]] else []
  {
    assert entries[..i + 1][..i] == entries[..i];
  }

  /** What `patch_by_dir` and its key order hold after the entries `prefix`:
      the directories of those entries in order of first appearance, each
      bound to its entries in order, and no entry under any other key. */
  ghost predicate Grouped(prefix: seq<Entry>, dirs: seq<string>, byDir: map<string, seq<Entry>>)
  {
    && dirs == Dirs(prefix)
    && (forall d :: d in byDir <==> d in dirs)
    && (forall d :: d in byDir ==> byDir[d] == Group(prefix, d))
    && (forall d :: d !in byDir ==> Group(prefix, d) == [])
  }

  /** One pass of the grouping loop keeps `Grouped`. */
  lemma {:induction false} GroupingStep(entries: seq<Entry>, i: nat, dirs: seq<string>, byDir: map<string, seq<Entry>>)
    requires i < |entries| && Grouped(entries[..i], dirs, byDir)
    ensures var p := Parent(entries[i].0);
      var dirs' := if p in byDir then dirs else dirs + [p];
      var byDir' := if p in byDir then byDir else byDir[p := []];
      Grouped(entries[..i + 1], dirs', byDir'[p := byDir'[p] + [entries[i]]])
  {
    var e := entries[i];
    var p := Parent(e.0);
    var dirs' := if p in byDir then dirs else dirs + [p];
    var byDir' := if p in byDir then byDir else byDir[p := []];
    var m := byDir'[p := byDir'[p] + [e]];
    var prefix := entries[..i + 1];
    assert dirs' == Dirs(prefix) by {
      DirsStep(entries, i);
    }
    assert forall d :: d in m <==> d in dirs' by {
      assert forall d :: d in dirs' <==> d in dirs || d == p;
    }
    assert forall d :: d in m ==> m[d] == Group(prefix, d) by {
      forall d | d in m
        ensures m[d] == Group(prefix, d)
      {
        GroupStep(entries, i, d);
      }
    }
    assert forall d :: d !in m ==> Group(prefix, d) == [] by {
      forall d | d !in m
        ensures Group(prefix, d) == []
      {
        GroupStep(entries, i, d);
      }
    }
    assert Grouped(prefix, dirs', m);
  }

  /** Filling `patch_by_dir` entry by entry: every directory of a file
      becomes a key, at its first file, and each key holds exactly the
      entries of that directory in their original order. */
  method GroupByDir(entries: seq<Entry>) returns (dirs: seq<string>, byDir: map<string, seq<Entry>>)
    ensures dirs == Dirs(entries)
    ensures forall d :: d in byDir <==> d in dirs
    ensures forall d :: d in byDir ==> byDir[d] == Group(entries, d)
  {
    dirs := [];
    byDir := map[];
    for i := 0 to |entries|
      invariant Grouped(entries[..i], dirs, byDir)
    {
      GroupingStep(entries, i, dirs, byDir);
      var (filepath, fileInfo) := entries[i];
      var dirPath := Parent(filepath);
      if dirPath !in byDir {
        byDir := byDir[dirPath := []];
        dirs := dirs + [dirPath];
      }
      byDir := byDir[dirPath := byDir[dirPath] + [(filepath, fileInfo)]];
    }
    assert entries[..|entries|] == entries;
  }

  /** Listing distinct directories one after another shows each entry under
      one of them exactly once: the listing is a permutation of those
      entries. */
  lemma {:induction false} FlattenPermutation(ds: seq<string>, entries: seq<Entry>)
    requires NoDups(ds)
    ensures multiset(Flatten(ds, entries)) == multiset(Filter(entries, InDirs(ds)))
  {
    if ds == [] {
      assert forall e :: !InDirs(ds)(e);
      FilterNone(entries, InDirs(ds));
    } else {
      var front := ds[..|ds| - 1];
      var last := ds[|ds| - 1];
      assert NoDups(front);
      assert last !in front;
      FlattenPermutation(front, entries);
      assert forall e :: InDirs(ds)(e) == (InDirs(front)(e) || InDir(last)(e)) by {
        assert ds == front + [last];
      }
      FilterDisjointUnion(entries, InDirs(front), InDir(last), InDirs(ds));
    }
  }

  // ---------------------------------------------------------------------
  // The lines of one patch file

  /** A detail line of an entry: `   - <text>`. */
  function Detail(text: string): string
  {
    "   - " + text
  }

  /** A numbered integration point line: `     <idx>. <text>`. */
  function ListedPoint(idx: nat, text: string): string
  {
    "     " + NatToString(idx) + ". " + text
  }

  function Take2(points: seq<string>): seq<string>
  {
    if |points| <= 2 then points else points[..2]
  }

  /** `enumerate(points, 1)`: the points numbered from 1. */
  function ListedPoints(points: seq<string>): (lines: seq<string>)
    ensures |lines| == |points|
    ensures forall k :: 0 <= k < |points| ==> lines[k] == ListedPoint(k + 1, points[k])
  {
    if points == [] then []
    else ListedPoints(points[..|points| - 1]) + [ListedPoint(|points|, points[|points| - 1])]
  }

  /** The closing line when more than two points exist, numbered `len - 1`
      as the report prints it. */
  function MoreLine(m: nat): string
    requires m > 2
  {
    ListedPoint(m - 1, "... and " + NatToString(m - 2) + " more")
  }

  /** The closing line numbered as the third item of the list, which is
      evidently what the report means. */
  function IntendedMoreLine(m: nat): string
    requires m > 2
  {
    ListedPoint(3, "... and " + NatToString(m - 2) + " more")
  }

  /** The integration-point lines of one patch file, as the report prints them. */
  function PointLines(points: seq<string>): seq<string>
  {
    if points == [] then []
    else
      [Detail("Integration Points: " + NatToString(|points|))] + ListedPoints(Take2(points))
      + if |points| > 2 then [MoreLine(|points|)] else []
  }

  /** The same lines with the closing line continuing the numbering. */
  function IntendedPointLines(points: seq<string>): seq<string>
  {
    if points == [] then []
    else
      [Detail("Integration Points: " + NatToString(|points|))] + ListedPoints(Take2(points))
      + if |points| > 2 then [IntendedMoreLine(|points|)] else []
  }

  /** The integration points of a file: a count line, then at most the first
      two points numbered 1 and 2, then, only when more exist, one line
      numbered `len - 1` that says how many were left out. */
  lemma {:induction false} PointLinesShape(points: seq<string>)
    requires points != []
    ensures var lines := PointLines(points);
      && lines[0] == Detail("Integration Points: " + NatToString(|points|))
      && |lines| == 1 + (if |points| <= 2 then |points| else 3)
      && (forall k :: 0 <= k < 2 && k < |points| ==> lines[k + 1] == ListedPoint(k + 1, points[k]))
      && (|points| > 2 ==> lines[3] == ListedPoint(|points| - 1, "... and " + NatToString(|points| - 2) + " more"))
  {
    var listed := ListedPoints(Take2(points));
    var more := if |points| > 2 then [MoreLine(|points|)] else [];
    var lines := PointLines(points);
    PointLinesUnfold(points);
    FirstTwoListed(points);
    forall k | 0 <= k < 2 && k < |points|
      ensures lines[k + 1] == ListedPoint(k + 1, points[k])
    {
      assert lines[k + 1] == listed[k];
    }
    if |points| > 2 {
      assert lines[3] == more[0];
    }
  }

  /** The points listed by number are the first two, numbered 1 and 2. */
  lemma {:induction false} FirstTwoListed(points: seq<string>)
    ensures |ListedPoints(Take2(points))| == if |points| <= 2 then |points| else 2
    ensures forall k :: 0 <= k < 2 && k < |points| ==> ListedPoints(Take2(points))[k] == ListedPoint(k + 1, points[k])
  {
    var t := Take2(points);
    assert forall k :: 0 <= k < |t| ==> t[k] == points[k];
  }

  /** Two listed lines with the same text are equal only when their numbers are. */
  lemma {:induction false} ListedPointNumber(i: nat, j: nat, text: string)
    ensures ListedPoint(i, text) == ListedPoint(j, text) <==> i == j
  {
    if ListedPoint(i, text) == ListedPoint(j, text) {
      var a, b := NatToString(i) + ". ", NatToString(j) + ". ";
      var line := ListedPoint(i, text);
      assert line == "     " + a + text;
      assert line == "     " + b + text;
      assert |a| == |b|;
      assert a == line[5..5 + |a|];
      assert NatToString(i) == a[..|a| - 2];
      NatToStringRoundTrip(i);
      NatToStringRoundTrip(j);
    }
  }

  /** As written, a file with three integration points lists the second
      point and the closing line under the same number 2. */
  lemma {:induction false} AsWrittenRepeatsNumber(a: string, b: string, c: string)
    ensures var lines := PointLines([a, b, c]);
      lines[2] == ListedPoint(2, b) && lines[3] == ListedPoint(2, "... and 1 more")
  {
    var t := Take2([a, b, c]);
    assert t == [a, b];
    assert ListedPoints(t)[1] == ListedPoint(2, b);
  }

  /** The printed and the intended lines differ only in the closing line's
      number, and coincide exactly when at most two points exist or when
      `len - 1` happens to be 3. */
  lemma {:induction false} IntendedDiffersOnlyInNumber(points: seq<string>)
    ensures |IntendedPointLines(points)| == |PointLines(points)|
    ensures |points| > 2 ==> IntendedPointLines(points)[..3] == PointLines(points)[..3]
    ensures IntendedPointLines(points) == PointLines(points) <==> |points| <= 2 || |points| == 4
  {
    if |points| > 2 {
      var head := [Detail("Integration Points: " + NatToString(|points|))] + ListedPoints(Take2(points));
      FirstTwoListed(points);
      assert |head| == 3;
      assert IntendedPointLines(points) == head + [IntendedMoreLine(|points|)];
      assert PointLines(points) == head + [MoreLine(|points|)];
      ListedPointNumber(|points| - 1, 3, "... and " + NatToString(|points| - 2) + " more");
      assert IntendedPointLines(points)[3] == IntendedMoreLine(|points|);
      assert PointLines(points)[3] == MoreLine(|points|);
    } else if points != [] {
      FirstTwoListed(points);
    }
  }

  /** With the closing line numbered 3, the listed lines always carry the
      numbers 1, 2, 3 in order. */
  lemma {:induction false} MoreLineContinuesNumbering(points: seq<string>)
    requires |points| > 2
    ensures IntendedPointLines(points)[1..] ==
      [ ListedPoint(1, points[0]), ListedPoint(2, points[1]),
        ListedPoint(3, "... and " + NatToString(|points| - 2) + " more") ]
  {
    var lines := IntendedPointLines(points);
    PointLinesShape(points);
    IntendedDiffersOnlyInNumber(points);
    assert lines[1] == PointLines(points)[..3][1];
    assert lines[2] == PointLines(points)[..3][2];
    assert lines[3] == IntendedMoreLine(|points|);
  }

  /** `first_change.get('content', '')[:60]`: at most 60 characters, taken
      from the start of the content. */
  function ExampleContent(c: Change): (shown: string)
    ensures |shown| <= 60
    ensures shown <= match c.content case Some(s) => s case None => ""
    ensures c.content.Some? && |c.content.value| <= 60 ==> shown == c.content.value
  {
    Truncate(match c.content case Some(s) => s case None => "", 60)
  }

  function ExampleLine(c: Change): string
  {
    Detail("Example: Line " + StrOrNone(c.line) + ": " + StrOrNone(c.changeType) + " - " + ExampleContent(c) + "...")
  }

  function ChangeLines(path: string, changes: seq<Change>): seq<string>
  {
    if changes == [] then []
    else
      [ Detail("Changes: " + NatToString(|changes|) + " modification(s)"),
        Detail("Patch file: `" + PatchFile(path) + "` (shows customizations to apply)"),
        ExampleLine(changes[0]) ]
      + if |changes| > 1 then [Detail("See patch file for all " + NatToString(|changes|) + " changes with full context")] else []
  }

  /** Change lines appear exactly when the file has changes; then come the
      patch file line, the example of the first change and, only for more
      than one change, a line pointing to the patch file for the rest. */
  lemma {:induction false} ChangeLinesShape(path: string, changes: seq<Change>)
    ensures ChangeLines(path, changes) == [] <==> changes == []
    ensures changes != [] ==> var lines := ChangeLines(path, changes);
      && |lines| == (if |changes| > 1 then 4 else 3)
      && lines[0] == Detail("Changes: " + NatToString(|changes|) + " modification(s)")
      && lines[1] == Detail("Patch file: `" + PatchFile(path) + "` (shows customizations to apply)")
      && lines[2] == ExampleLine(changes[0])
      && (|changes| > 1 ==> lines[3] == Detail("See patch file for all " + NatToString(|changes|) + " changes with full context"))
  {
  }

  /** The numbered heading line of a patch file. */
  function Heading(n: nat, path: string): string
  {
    "\n" + NatToString(n) + ". **" + path + "**"
  }

  /** A patch file: its numbered heading, then its body. */
  function PatchFileLines(n: nat, e: Entry): seq<string>
  {
    [Heading(n, e.0)] + PatchFileBody(e)
  }

  /** The lines of a patch file after its heading: the action, the changes
      and the integration points. */
  function PatchFileBody(e: Entry): seq<string>
  {
    [Detail("Action: PATCH_MODIFIED")] + ChangeLines(e.0, e.1.changes) + PointLines(e.1.integrationPoints)
  }

  // ---------------------------------------------------------------------
  // The whole section

  function RevertEntryLines(idx: nat, e: Entry): seq<string>
  {
    var reason := match e.1.reason case Some(r) => Str(r) case None => DefaultReason;
    [ NatToString(idx) + ". **" + e.0 + "**",
      Detail("Action: REVERT to clean Dawn 15.4.0"),
      Detail("Reason: " + reason),
      Detail("Patch file: `" + PatchFile(e.0) + "` (shows customizations being removed)") ]
  }

  /** The revert entries, the last one numbered `|items|`. */
  function RevertEntriesLines(items: seq<Entry>): (lines: seq<string>)
    ensures |lines| == 4 * |items|
  {
    if items == [] then []
    else RevertEntriesLines(items[..|items| - 1]) + RevertEntryLines(|items|, items[|items| - 1])
  }

  /** The `k`-th revert entry (from 0) is numbered `k + 1` and shows its
      path, the revert action, its reason (the fixed default when it has
      none) and the patch file that holds its customizations. */
  lemma {:induction false} RevertEntryNumbering(items: seq<Entry>, k: nat)
    requires k < |items|
    ensures var lines := RevertEntriesLines(items);
      && lines[4 * k] == NatToString(k + 1) + ". **" + items[k].0 + "**"
      && lines[4 * k + 1] == Detail("Action: REVERT to clean Dawn 15.4.0")
      && lines[4 * k + 2] == Detail("Reason: " + match items[k].1.reason case Some(r) => Str(r) case None => DefaultReason)
      && lines[4 * k + 3] == Detail("Patch file: `" + PatchFile(items[k].0) + "` (shows customizations being removed)")
  {
    var front := items[..|items| - 1];
    if k < |items| - 1 {
      RevertEntryNumbering(front, k);
      assert front[k] == items[k];
    }
  }

  /** How one numbered entry of the patch list is shown. The listing below
      is stated for any such rendering, so that its structure (numbering,
      grouping) is separate from the text of one entry. */
  type Render = (nat, Entry) -> seq<string>

  /** Entries numbered from `start`, each shown by `render`. */
  function FilesLines(entries: seq<Entry>, start: nat, render: Render): seq<string>
  {
    if entries == [] then []
    else
      var front := entries[..|entries| - 1];
      FilesLines(front, start, render) + render(start + |front|, entries[|entries| - 1])
  }

  function DirHeading(d: string): string
  {
    "#### " + d + "/"
  }

  function DirBlock(d: string, entries: seq<Entry>, start: nat, render: Render): seq<string>
  {
    [DirHeading(d)] + FilesLines(entries, start, render) + [""]
  }

  /** The directories `ds` in turn, the counter carried on from `start`. */
  function DirsLines(ds: seq<string>, entries: seq<Entry>, start: nat, render: Render): seq<string>
  {
    if ds == [] then []
    else
      DirsLines(ds[..|ds| - 1], entries, start, render)
      + DirBlock(ds[|ds| - 1], Group(entries, ds[|ds| - 1]), start + |Flatten(ds[..|ds| - 1], entries)|, render)
  }

  function RevertSection(inv: Inventory): seq<string>
  {
    var items := RevertItems(inv);
    if items == [] then [] else RevertHeader + RevertEntriesLines(items) + [""]
  }

  function PatchSection(inv: Inventory): seq<string>
  {
    var entries := PatchItems(inv);
    if entries == [] then [] else PatchHeader + DirsLines(Sort(Dirs(entries)), entries, 1, PatchFileLines)
  }

  /** The lines of the whole section. */
  function ModifiedFilesLines(inv: Inventory): seq<string>
  {
    Header + RevertSection(inv) + PatchSection(inv)
  }

  // ---------------------------------------------------------------------
  // The running counter

  /** Only the heading line of a patch file starts with a line break. */
  predicate IsHeading(line: string)
  {
    |line| > 0 && line[0] == '\n'
  }

  lemma {:induction false} HeadingIsHeading(n: nat, path: string)
    ensures IsHeading(Heading(n, path))
  {
  }

  lemma {:induction false} DetailsAreNotHeadings()
    ensures forall text :: !IsHeading(Detail(text))
    ensures forall idx, text :: !IsHeading(ListedPoint(idx, text))
    ensures forall d :: !IsHeading(DirHeading(d))
  {
  }

  /** The headings of `entries` numbered from `start`. */
  function Headings(entries: seq<Entry>, start: nat): (hs: seq<string>)
    ensures |hs| == |entries|
  {
    if entries == [] then []
    else Headings(entries[..|entries| - 1], start) + [Heading(start + |entries| - 1, entries[|entries| - 1].0)]
  }

  /** The `k`-th heading carries the number `start + k`. */
  lemma {:induction false} HeadingsAt(entries: seq<Entry>, start: nat, k: nat)
    requires k < |entries|
    ensures Headings(entries, start)[k] == Heading(start + k, entries[k].0)
  {
    var front := entries[..|entries| - 1];
    if k < |front| {
      HeadingsAt(front, start, k);
      assert front[k] == entries[k];
    }
  }

  lemma {:induction false} HeadingsConcat(a: seq<Entry>, b: seq<Entry>, start: nat)
    ensures Headings(a + b, start) == Headings(a, start) + Headings(b, start + |a|)
  {
    if b == [] {
      assert a + b == a;
    } else {
      var front := b[..|b| - 1];
      HeadingsConcat(a, front, start);
      assert (a + b)[..|a + b| - 1] == a + front;
    }
  }

  lemma {:induction false} FilterNoHeading(lines: seq<string>)
    requires forall k :: 0 <= k < |lines| ==> !IsHeading(lines[k])
    ensures Filter(lines, IsHeading) == []
  {
    FilterNone(lines, IsHeading);
  }

  lemma {:induction false} ChangeLinesNoHeading(path: string, changes: seq<Change>)
    ensures Filter(ChangeLines(path, changes), IsHeading) == []
  {
    DetailsAreNotHeadings();
    FilterNoHeading(ChangeLines(path, changes));
  }

  lemma {:induction false} PointLinesNoHeading(points: seq<string>)
    ensures Filter(PointLines(points), IsHeading) == []
  {
    DetailsAreNotHeadings();
    if points != [] {
      PointLinesUnfold(points);
    }
    FilterNoHeading(PointLines(points));
  }

  lemma {:induction false} BodyNoHeading(e: Entry)
    ensures Filter(PatchFileBody(e), IsHeading) == []
  {
    var d := [Detail("Action: PATCH_MODIFIED")];
    var changes := ChangeLines(e.0, e.1.changes);
    DetailsAreNotHeadings();
    FilterNoHeading(d);
    ChangeLinesNoHeading(e.0, e.1.changes);
    PointLinesNoHeading(e.1.integrationPoints);
    FilterConcat(d, changes, IsHeading);
    FilterConcat(d + changes, PointLines(e.1.integrationPoints), IsHeading);
  }

  /** Each patch file contributes exactly one heading: its own. */
  lemma {:induction false} FileHeading(n: nat, e: Entry)
    ensures Filter(PatchFileLines(n, e), IsHeading) == [Heading(n, e.0)]
  {
    var h := Heading(n, e.0);
    HeadingIsHeading(n, e.0);
    BodyNoHeading(e);
    assert Filter([h], IsHeading) == [h] by {
      assert [h][..0] == [];
    }
    FilterConcat([h], PatchFileBody(e), IsHeading);
  }

  lemma {:induction false} DirsLinesUnfold(ds: seq<string>, entries: seq<Entry>, start: nat, render: Render)
    requires ds != []
    ensures DirsLines(ds, entries, start, render)
      == DirsLines(ds[..|ds| - 1], entries, start, render)
       + DirBlock(ds[|ds| - 1], Group(entries, ds[|ds| - 1]), start + |Flatten(ds[..|ds| - 1], entries)|, render)
    ensures Flatten(ds, entries) == Flatten(ds[..|ds| - 1], entries) + Group(entries, ds[|ds| - 1])
  {
  }

  /** Two listings one after the other, the second numbered on from the
      first, show the headings of both in order. */
  lemma {:induction false} HeadingsAppend(a: seq<string>, b: seq<string>, ea: seq<Entry>, eb: seq<Entry>, start: nat)
    requires Filter(a, IsHeading) == Headings(ea, start)
    requires Filter(b, IsHeading) == Headings(eb, start + |ea|)
    ensures Filter(a + b, IsHeading) == Headings(ea + eb, start)
  {
    FilterConcat(a, b, IsHeading);
    HeadingsConcat(ea, eb, start);
  }

  /** The lines `render` gives entry `e` numbered `n` hold its heading and no other. */
  ghost predicate ShowsOwnHeading(render: Render, n: nat, e: Entry)
  {
    Filter(render(n, e), IsHeading) == [Heading(n, e.0)]
  }

  /** `render` shows the heading of the entry it numbers, and no other. */
  ghost predicate OneHeading(render: Render)
  {
    forall n, e :: ShowsOwnHeading(render, n, e)
  }

  lemma {:induction false} PatchFileOneHeading()
    ensures OneHeading(PatchFileLines)
  {
    forall n, e
      ensures ShowsOwnHeading(PatchFileLines, n, e)
    {
      FileHeading(n, e);
    }
  }

  lemma {:induction false} FilesHeadings(entries: seq<Entry>, start: nat, render: Render)
    requires OneHeading(render)
    ensures Filter(FilesLines(entries, start, render), IsHeading) == Headings(entries, start)
  {
    if entries != [] {
      var front := entries[..|entries| - 1];
      var last := entries[|entries| - 1];
      FilesHeadings(front, start, render);
      assert ShowsOwnHeading(render, start + |front|, last);
      FilterConcat(FilesLines(front, start, render), render(start + |front|, last), IsHeading);
    }
  }

  lemma {:induction false} DirBlockHeadings(d: string, entries: seq<Entry>, start: nat, render: Render)
    requires OneHeading(render)
    ensures Filter(DirBlock(d, entries, start, render), IsHeading) == Headings(entries, start)
  {
    var head := [DirHeading(d)];
    var body := FilesLines(entries, start, render);
    FilesHeadings(entries, start, render);
    DetailsAreNotHeadings();
    FilterNoHeading(head);
    FilterNoHeading([""]);
    FilterConcat(head, body, IsHeading);
    FilterConcat(head + body, [""], IsHeading);
  }

  lemma {:induction false} DirsHeadings(ds: seq<string>, entries: seq<Entry>, start: nat, render: Render)
    requires OneHeading(render)
    ensures Filter(DirsLines(ds, entries, start, render), IsHeading) == Headings(Flatten(ds, entries), start)
  {
    if ds != [] {
      var front := ds[..|ds| - 1];
      var last := ds[|ds| - 1];
      var group := Group(entries, last);
      var n := start + |Flatten(front, entries)|;
      DirsHeadings(front, entries, start, render);
      DirBlockHeadings(last, group, n, render);
      HeadingsAppend(DirsLines(front, entries, start, render), DirBlock(last, group, n, render), Flatten(front, entries), group, start);
      DirsLinesUnfold(ds, entries, start, render);
    }
  }

  /** The patch list in full: the directories are the parents of the patch
      files, pairwise different and sorted; every patch file is listed
      exactly once, under its own directory; and the `k`-th file listed, over
      all directories, is numbered `k + 1`. */
  lemma {:induction false} PatchListing(inv: Inventory)
    ensures var entries := PatchItems(inv);
      var ds := Sort(Dirs(entries));
      && StrictlySorted(ds)
      && (forall d :: d in ds <==> d in Parents(entries))
      && multiset(Flatten(ds, entries)) == multiset(entries)
      && Filter(DirsLines(ds, entries, 1, PatchFileLines), IsHeading) == Headings(Flatten(ds, entries), 1)
  {
    var entries := PatchItems(inv);
    var ds := Sort(Dirs(entries));
    DedupProperties(Parents(entries));
    SortDistinct(Dirs(entries));
    FlattenPermutation(ds, entries);
    forall e | e in entries
      ensures InDirs(ds)(e)
    {
      var i :| 0 <= i < |entries| && entries[i] == e;
      assert Parents(entries)[i] == Parent(e.0);
    }
    FilterAll(entries, InDirs(ds));
    PatchFileOneHeading();
    DirsHeadings(ds, entries, 1, PatchFileLines);
  }

  lemma {:induction false} FilesLinesStep(entries: seq<Entry>, start: nat, render: Render, j: nat)
    requires j < |entries|
    ensures FilesLines(entries[..j + 1], start, render) == FilesLines(entries[..j], start, render) + render(start + j, entries[j])
  {
    assert entries[..j + 1][..j] == entries[..j];
  }

  lemma {:induction false} DirsLinesStep(ds: seq<string>, entries: seq<Entry>, start: nat, render: Render, i: nat)
    requires i < |ds|
    ensures Flatten(ds[..i + 1], entries) == Flatten(ds[..i], entries) + Group(entries, ds[i])
    ensures DirsLines(ds[..i + 1], entries, start, render)
      == DirsLines(ds[..i], entries, start, render) + DirBlock(ds[i], Group(entries, ds[i]), start + |Flatten(ds[..i], entries)|, render)
  {
    assert ds[..i + 1][..i] == ds[..i];
  }

  /** One more directory: its block continues the lines and the counter. */
  lemma {:induction false} AppendDirectoryStep(lines: seq<string>, out: seq<string>, block: seq<string>,
                            ds: seq<string>, entries: seq<Entry>, render: Render, i: nat, counter: nat)
    requires i < |ds|
    requires counter == 1 + |Flatten(ds[..i], entries)|
    requires out == lines + DirsLines(ds[..i], entries, 1, render)
    requires block == DirBlock(ds[i], Group(entries, ds[i]), counter, render)
    ensures out + block == lines + DirsLines(ds[..i + 1], entries, 1, render)
    ensures counter + |Group(entries, ds[i])| == 1 + |Flatten(ds[..i + 1], entries)|
  {
    DirsLinesStep(ds, entries, 1, render, i);
    AppendAssoc(lines, DirsLines(ds[..i], entries, 1, render), block);
  }

  // ---------------------------------------------------------------------
  // The section, line by line

  /** `format_modified_files`. */
  method FormatModifiedFiles(inv: Inventory) returns (lines: seq<string>)
    ensures lines == ModifiedFilesLines(inv)
  {
    lines := Header;
    var revertFiles := RevertItems(inv);
    lines := AppendRevertSection(lines, revertFiles);
    var patchFiles := PatchItems(inv);
    lines := AppendPatchSection(lines, patchFiles);
  }

  /** The revert list, appended to `lines` when there is anything to revert. */
  method AppendRevertSection(lines: seq<string>, revertFiles: seq<Entry>) returns (out: seq<string>)
    ensures out == lines + (if revertFiles == [] then [] else RevertHeader + RevertEntriesLines(revertFiles) + [""])
  {
    out := lines;
    if revertFiles != [] {
      out := out + RevertHeader;
      ghost var before := out;
      for idx := 0 to |revertFiles|
        invariant out == before + RevertEntriesLines(revertFiles[..idx])
      {
        assert RevertEntriesLines(revertFiles[..idx + 1])
          == RevertEntriesLines(revertFiles[..idx]) + RevertEntryLines(idx + 1, revertFiles[idx]) by {
          assert revertFiles[..idx + 1][..idx] == revertFiles[..idx];
        }
        var (filepath, fileInfo) := revertFiles[idx];
        var reason := match fileInfo.reason case Some(r) => Str(r) case None => DefaultReason;
        out := out + [
          NatToString(idx + 1) + ". **" + filepath + "**",
          Detail("Action: REVERT to clean Dawn 15.4.0"),
          Detail("Reason: " + reason),
          Detail("Patch file: `" + PatchFile(filepath) + "` (shows customizations being removed)")];
      }
      assert revertFiles[..|revertFiles|] == revertFiles;
      out := out + [""];
      AppendAssoc(lines, RevertHeader, RevertEntriesLines(revertFiles));
      AppendAssoc(lines, RevertHeader + RevertEntriesLines(revertFiles), [""]);
    }
  }

  /** The patch list, appended to `lines` when there is anything to patch:
      the files grouped by directory, the directories in sorted order. */
  method AppendPatchSection(lines: seq<string>, patchFiles: seq<Entry>) returns (out: seq<string>)
    ensures out == lines + (if patchFiles == [] then [] else PatchHeader + DirsLines(Sort(Dirs(patchFiles)), patchFiles, 1, PatchFileLines))
  {
    out := lines;
    if patchFiles != [] {
      out := out + PatchHeader;
      var dirs, byDir := GroupByDir(patchFiles);
      var sortedDirs := Sort(dirs);
      DedupProperties(Parents(patchFiles));
      SortDistinct(dirs);
      out := AppendDirectories(out, sortedDirs, byDir, patchFiles);
      AppendAssoc(lines, PatchHeader, DirsLines(sortedDirs, patchFiles, 1, PatchFileLines));
    }
  }

  /** The directories in the given order, one counter running over all of
      their files from 1. */
  method AppendDirectories(lines: seq<string>, sortedDirs: seq<string>, byDir: map<string, seq<Entry>>, patchFiles: seq<Entry>)
    returns (out: seq<string>)
    requires forall d :: d in sortedDirs ==> d in byDir && byDir[d] == Group(patchFiles, d)
    ensures out == lines + DirsLines(sortedDirs, patchFiles, 1, PatchFileLines)
  {
    out := lines;
    var fileCounter := 1;
    for i := 0 to |sortedDirs|
      invariant fileCounter == 1 + |Flatten(sortedDirs[..i], patchFiles)|
      invariant out == lines + DirsLines(sortedDirs[..i], patchFiles, 1, PatchFileLines)
    {
      var dirPath := sortedDirs[i];
      assert dirPath in sortedDirs;
      var block, next := FormatDirectory(dirPath, byDir[dirPath], fileCounter);
      AppendDirectoryStep(lines, out, block, sortedDirs, patchFiles, PatchFileLines, i, fileCounter);
      out := out + block;
      fileCounter := next;
    }
    assert sortedDirs[..|sortedDirs|] == sortedDirs;
  }

  /** One directory of the patch list: its heading, its files numbered on
      from `counter`, a blank line; the counter moves on by one per file. */
  method FormatDirectory(dirPath: string, entries: seq<Entry>, counter: nat)
    returns (block: seq<string>, next: nat)
    ensures block == DirBlock(dirPath, entries, counter, PatchFileLines)
    ensures next == counter + |entries|
  {
    block := [DirHeading(dirPath)];
    next := counter;
    for j := 0 to |entries|
      invariant next == counter + j
      invariant block == [DirHeading(dirPath)] + FilesLines(entries[..j], counter, PatchFileLines)
    {
      FilesLinesStep(entries, counter, PatchFileLines, j);
      var fileLines := FormatPatchFile(next, entries[j]);
      AppendAssoc([DirHeading(dirPath)], FilesLines(entries[..j], counter, PatchFileLines), fileLines);
      block := block + fileLines;
      next := next + 1;
    }
    assert entries[..|entries|] == entries;
    block := block + [""];
  }

  /** The lines of one patch file. */
  method FormatPatchFile(counter: nat, entry: Entry) returns (block: seq<string>)
    ensures block == PatchFileLines(counter, entry)
  {
    var (filepath, fileInfo) := entry;
    var heading := ["\n" + NatToString(counter) + ". **" + filepath + "**"];
    var body := [Detail("Action: PATCH_MODIFIED")];
    body := AppendChangeLines(body, filepath, fileInfo.changes);
    body := AppendPointLines(body, fileInfo.integrationPoints);
    block := heading + body;
  }

  /** The change lines of a patch file, appended to `lines`. */
  method AppendChangeLines(lines: seq<string>, filepath: string, changes: seq<Change>) returns (out: seq<string>)
    ensures out == lines + ChangeLines(filepath, changes)
  {
    out := lines;
    if changes != [] {
      var patchFile := PatchFile(filepath);
      out := out + [
        Detail("Changes: " + NatToString(|changes|) + " modification(s)"),
        Detail("Patch file: `" + patchFile + "` (shows customizations to apply)")];
      var firstChange := changes[0];
      out := out + [ExampleLine(firstChange)];
      ghost var example := out;
      if |changes| > 1 {
        out := out + [Detail("See patch file for all " + NatToString(|changes|) + " changes with full context")];
      }
      assert out == lines + ChangeLines(filepath, changes) by {
        assert example == lines + ChangeLines(filepath, changes)[..3];
      }
    }
  }

  lemma {:induction false} PointLinesUnfold(points: seq<string>)
    requires points != []
    ensures PointLines(points) == [Detail("Integration Points: " + NatToString(|points|))] + ListedPoints(Take2(points))
      + if |points| > 2 then [MoreLine(|points|)] else []
  {
  }

  /** The integration-point lines of a patch file, appended to `lines`. */
  method AppendPointLines(lines: seq<string>, points: seq<string>) returns (out: seq<string>)
    ensures out == lines + PointLines(points)
  {
    out := lines;
    if points != [] {
      var countLine := Detail("Integration Points: " + NatToString(|points|));
      var shown := Take2(points);
      out := AppendListedPoints(out + [countLine], shown);
      ghost var more := if |points| > 2 then [MoreLine(|points|)] else [];
      if |points| > 2 {
        out := out + [MoreLine(|points|)];
      }
      PointLinesUnfold(points);
      AppendAssoc(lines, [countLine], ListedPoints(shown));
      AppendAssoc(lines, [countLine] + ListedPoints(shown), more);
    }
  }

  /** `for idx, point in enumerate(shown, 1)`. */
  method AppendListedPoints(lines: seq<string>, shown: seq<string>) returns (out: seq<string>)
    ensures out == lines + ListedPoints(shown)
  {
    out := lines;
    for idx := 0 to |shown|
      invariant out == lines + ListedPoints(shown[..idx])
    {
      assert ListedPoints(shown[..idx + 1]) == ListedPoints(shown[..idx]) + [ListedPoint(idx + 1, shown[idx])] by {
        assert shown[..idx + 1][..idx] == shown[..idx];
      }
      out := out + ["     " + NatToString(idx + 1) + ". " + shown[idx]];
    }
    assert shown[..|shown|] == shown;
  }
}
