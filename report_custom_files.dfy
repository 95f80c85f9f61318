/**
  `format_custom_files` of scripts/generate-diff-documentation.py: the
  "Custom Files" section, one block per category that has files, each file
  numbered from 1 within its category.
*/
module ReportCustomFiles {
  import opened JsonValues
  import opened Strings
  import opened Sequences

  /** An entry of `inventory['custom_files'][category]`. */
  datatype CustomFile = CustomFile(path: string, fileType: string, description: Option<Scalar>)

  /** A category name and its files; the categories keep the order of the
      inventory's `custom_files` object. */
  type Category = (string, seq<CustomFile>)

  const Header: seq<string> :=
    ["## Custom Files\n", "Files that were added and do not exist in Dawn 10.0.0.\n"]

  /** `file_info.get('description', 'N/A')` */
  function DescriptionText(d: Option<Scalar>): string
  {
    match d
    case Some(v) => Str(v)
    case None => "N/A"
  }

  function EntryLines(idx: nat, f: CustomFile): seq<string>
  {
    [ NatToString(idx) + ". **" + f.path + "**",
      "   - Action: COPY",
      "   - Type: " + f.fileType,
      "   - Description: " + DescriptionText(f.description) ]
  }

  /** The numbered entries of a category's files, the last one numbered `|files|`. */
  function EntriesLines(files: seq<CustomFile>): (lines: seq<string>)
    ensures |lines| == 4 * |files|
  {
    if files == [] then []
    else EntriesLines(files[..|files| - 1]) + EntryLines(|files|, files[|files| - 1])
  }

  function CategoryLines(c: Category): seq<string>
  {
    if c.1 == [] then []
    else ["### " + Capitalize(c.0), "Action: COPY from develop to Dawn 15.4.0\n"] + EntriesLines(c.1) + [""]
  }

  function CategoriesLines(cats: seq<Category>): seq<string>
  {
    if cats == [] then [] else CategoriesLines(cats[..|cats| - 1]) + CategoryLines(cats[|cats| - 1])
  }

  /** The lines of the whole section. */
  function CustomFilesLines(cats: seq<Category>): seq<string>
  {
    Header + CategoriesLines(cats)
  }

  /** The `i`-th file of a category (from 0) is listed as number `i + 1`,
      with its path, its type and its description or `N/A`. */
  lemma {:induction false} EntryNumbering(files: seq<CustomFile>, i: nat)
    requires i < |files|
    ensures EntriesLines(files)[4 * i] == NatToString(i + 1) + ". **" + files[i].path + "**"
    ensures EntriesLines(files)[4 * i + 2] == "   - Type: " + files[i].fileType
    ensures EntriesLines(files)[4 * i + 3] ==
      "   - Description: " + (if files[i].description.None? then "N/A" else Str(files[i].description.value))
  {
    var front := files[..|files| - 1];
    if i < |files| - 1 {
      EntryNumbering(front, i);
      assert front[i] == files[i];
    }
  }

  predicate HasFiles(c: Category)
  {
    c.1 != []
  }

  /** Categories without files contribute nothing: the section is the same
      as for the categories that have files. */
  lemma {:induction false} SkipsEmptyCategories(cats: seq<Category>)
    ensures CategoriesLines(cats) == CategoriesLines(Filter(cats, HasFiles))
  {
    if cats != [] {
      var front := cats[..|cats| - 1];
      var last := cats[|cats| - 1];
      SkipsEmptyCategories(front);
      var kept := Filter(front, HasFiles);
      if HasFiles(last) {
        assert Filter(cats, HasFiles) == kept + [last];
        assert (kept + [last])[..|kept|] == kept;
      } else {
        assert Filter(cats, HasFiles) == kept;
      }
    }
  }

  /** A category block is present exactly when the category has files, and
      then it holds a heading, the action line, four lines per file and a
      blank line. */
  lemma {:induction false} CategoryBlockSize(c: Category)
    ensures |CategoryLines(c)| == if c.1 == [] then 0 else 4 * |c.1| + 3
    ensures c.1 != [] ==> CategoryLines(c)[0] == "### " + Capitalize(c.0)
  {
  }

  lemma {:induction false} CategoriesLinesStep(cats: seq<Category>, c: nat)
    requires c < |cats|
    ensures CategoriesLines(cats[..c + 1]) == CategoriesLines(cats[..c]) + CategoryLines(cats[c])
  {
    assert cats[..c + 1][..c] == cats[..c];
  }

  /** `format_custom_files`, appending line by line. */
  method FormatCustomFiles(cats: seq<Category>) returns (lines: seq<string>)
    ensures lines == CustomFilesLines(cats)
  {
    lines := Header;
    for c := 0 to |cats|
      invariant lines == Header + CategoriesLines(cats[..c])
    {
      var category := cats[c].0;
      var files := cats[c].1;
      assert (category, files) == cats[c];
      CategoriesLinesStep(cats, c);
      ghost var before := lines;
      if files != [] {
        var block := FormatCategory(category, files);
        lines := lines + block;
      }
      assert lines == before + CategoryLines(cats[c]);
      AppendAssoc(Header, CategoriesLines(cats[..c]), CategoryLines(cats[c]));
    }
    assert cats[..|cats|] == cats;
  }

  /** The body of the loop for one category that has files: its heading,
      its numbered entries and a blank line. */
  method FormatCategory(category: string, files: seq<CustomFile>) returns (block: seq<string>)
    requires files != []
    ensures block == CategoryLines((category, files))
  {
    var heading := ["### " + Capitalize(category), "Action: COPY from develop to Dawn 15.4.0\n"];
    block := heading;
    for idx := 0 to |files|
      invariant block == heading + EntriesLines(files[..idx])
    {
      assert EntriesLines(files[..idx + 1]) == EntriesLines(files[..idx]) + EntryLines(idx + 1, files[idx]) by {
        assert files[..idx + 1][..idx] == files[..idx];
      }
      var fileInfo := files[idx];
      block := block + [
        NatToString(idx + 1) + ". **" + fileInfo.path + "**",
        "   - Action: COPY",
        "   - Type: " + fileInfo.fileType,
        "   - Description: " + DescriptionText(fileInfo.description)];
    }
    assert files[..|files|] == files;
    block := block + [""];
  }
}
