/**
  The one decision in `format_settings_summary` of
  scripts/generate-diff-documentation.py: whether the theme version change
  is reported, and how. The rest of that function is fixed text.
*/
module ReportSettings {
  import opened JsonValues

  const VersionLabel: string := "**Version Change:** "
  const Arrow: string := " → "
  const CustomRecord: string := "v10_custom"

  /** The version line for the record `vc`; a missing `old` or `new` shows
      as `None`. */
  function VersionLine(vc: Object): (line: string)
    ensures |line| >= |VersionLabel| && line[..|VersionLabel|] == VersionLabel
  {
    VersionLabel + StrOrNone(Get(vc, "old")) + Arrow + StrOrNone(Get(vc, "new"))
  }

  /** The version lines of the settings summary, given
      `settings['theme_info_changes']` (an absent key is the empty map, which
      Python treats the same). */
  function VersionLines(themeInfo: map<string, Object>): (lines: seq<string>)
    ensures |lines| <= 1
    ensures lines != [] <==> CustomRecord in themeInfo && themeInfo[CustomRecord] != map[]
    ensures lines != [] ==> lines[0] == VersionLine(themeInfo[CustomRecord])
  {
    if themeInfo != map[] then
      var versionChange := GetOr(themeInfo, CustomRecord, map[]);
      if versionChange != map[] then [VersionLine(versionChange)] else []
    else []
  }

  /** When the record holds both versions as text, the line shows exactly
      them, old before new, and each can be read back from the line. */
  lemma {:induction false} VersionLineShowsBoth(vc: Object, before: string, after: string)
    requires "old" in vc && vc["old"] == Text(before)
    requires "new" in vc && vc["new"] == Text(after)
    ensures var line := VersionLine(vc);
      line[|VersionLabel|..|VersionLabel| + |before|] == before &&
      line[|VersionLabel| + |before| + |Arrow|..] == after
  {
    var line := VersionLine(vc);
    assert line == VersionLabel + before + Arrow + after;
    assert line[|VersionLabel|..|VersionLabel| + |before|] == before;
  }

  /** A missing `old` shows as `None` right after the label, and a missing
      `new` as `None` at the end of the line. */
  lemma {:induction false} VersionLineShowsNone(vc: Object)
    ensures var line := VersionLine(vc);
      && ("old" !in vc ==> |line| >= |VersionLabel| + 4 && line[|VersionLabel|..|VersionLabel| + 4] == "None")
      && ("new" !in vc ==> |line| >= 4 && line[|line| - 4..] == "None")
  {
    var before, after := StrOrNone(Get(vc, "old")), StrOrNone(Get(vc, "new"));
    var line := VersionLine(vc);
    assert line == VersionLabel + before + Arrow + after;
    if "old" !in vc {
      assert line[|VersionLabel|..|VersionLabel| + |before|] == before;
    }
    if "new" !in vc {
      assert line[|line| - |after|..] == after;
    }
  }
}
