/**
  scripts/version_config.py: where the upgrade analysis finds its git
  references and version records. The configuration file is an input, either
  missing or already parsed; every lookup first "loads" it and fails with a
  not-found error when it is missing.
*/
module VersionConfig {
  import opened JsonValues
  import opened Strings

  /** The parsed file: its top-level keys whose values are objects. */
  datatype Config = Config(objects: map<string, Object>)

  /** What `load_version_config` finds at the configuration path. */
  datatype ConfigFile = Missing(path: string) | Present(config: Config)

  datatype Error =
    | ConfigNotFound(path: string)   // FileNotFoundError
    | UnknownKey(key: string)        // ValueError("Unknown key: ...")

  datatype Result<T> = Ok(value: T) | Err(error: Error)

  /** `config.get(key, {})` */
  function Section(config: Config, key: string): Object
  {
    GetOr(config.objects, key, map[])
  }

  /** The ref names `get_git_refs` answers, the `git_config` field each is
      read from, and the value used when that field is absent. */
  const RefField: map<string, string> :=
    map["current" := "current_branch", "comparison" := "comparison_ref",
        "destination" := "destination_ref", "upstream_remote" := "upstream_remote"]
  const RefDefault: map<string, string> :=
    map["current" := "HEAD", "comparison" := "v10.0.0",
        "destination" := "upstream/main", "upstream_remote" := "upstream"]

  /** The three version records `get_version_info` answers. */
  const VersionSections: set<string> := {"comparison", "destination", "current"}

  function LoadVersionConfig(file: ConfigFile): (r: Result<Config>)
    ensures file.Missing? ==> r == Err(ConfigNotFound(file.path))
    ensures file.Present? ==> r == Ok(file.config)
  {
    match file
    case Missing(path) => Err(ConfigNotFound(path))
    case Present(config) => Ok(config)
  }

  /** `get_git_refs`: exactly the four ref names, each taken from `git_config`
      when the field is there and defaulted otherwise. */
  function GetGitRefs(file: ConfigFile): (r: Result<map<string, Scalar>>)
    ensures file.Missing? ==> r == Err(ConfigNotFound(file.path))
    ensures file.Present? ==> r.Ok? && r.value.Keys == RefField.Keys
    ensures file.Present? ==> forall name :: name in RefField ==>
      var gc := Section(file.config, "git_config");
      r.value[name] == if RefField[name] in gc then gc[RefField[name]] else Text(RefDefault[name])
  {
    match LoadVersionConfig(file)
    case Err(e) => Err(e)
    case Ok(config) =>
      var gitConfig := Section(config, "git_config");
      Ok(map[
        "current" := GetOr(gitConfig, "current_branch", Text("HEAD")),
        "comparison" := GetOr(gitConfig, "comparison_ref", Text("v10.0.0")),
        "destination" := GetOr(gitConfig, "destination_ref", Text("upstream/main")),
        "upstream_remote" := GetOr(gitConfig, "upstream_remote", Text("upstream"))])
  }

  /** A configuration without a `git_config` object yields the defaults. */
  lemma {:induction false} GitRefsWithoutGitConfig(config: Config)
    requires "git_config" !in config.objects
    ensures GetGitRefs(Present(config)) ==
      Ok(map["current" := Text("HEAD"), "comparison" := Text("v10.0.0"),
             "destination" := Text("upstream/main"), "upstream_remote" := Text("upstream")])
  {
    var r := GetGitRefs(Present(config)).value;
    assert forall name :: name in RefField ==> r[name] == Text(RefDefault[name]);
  }

  /** `get_version_info`: exactly the three section names, each bound to the
      `<section>_version` object, or to an empty one when that is absent. */
  function GetVersionInfo(file: ConfigFile): (r: Result<map<string, Object>>)
    ensures file.Missing? ==> r == Err(ConfigNotFound(file.path))
    ensures file.Present? ==> r.Ok? && r.value.Keys == VersionSections
    ensures file.Present? ==> forall s :: s in VersionSections ==>
      r.value[s] == Section(file.config, s + "_version")
  {
    match LoadVersionConfig(file)
    case Err(e) => Err(e)
    case Ok(config) =>
      assert "current" + "_version" == "current_version";
      assert "comparison" + "_version" == "comparison_version";
      assert "destination" + "_version" == "destination_version";
      Ok(map[
        "current" := Section(config, "current_version"),
        "comparison" := Section(config, "comparison_version"),
        "destination" := Section(config, "destination_version")])
  }

  /** `get_version_value(key)` */
  function GetVersionValue(file: ConfigFile, key: string): (r: Result<string>)
    ensures file.Missing? ==> r == Err(ConfigNotFound(file.path))
    ensures file.Present? && r.Err? ==> r.error == UnknownKey(key)
  {
    match LoadVersionConfig(file)
    case Err(e) => Err(e)
    case Ok(_) =>
      var parts := Split(key, '.');
      if |parts| == 2 && parts[0] in VersionSections then
        var info := GetVersionInfo(file).value;
        var section, field := parts[0], parts[1];
        if section in info && field in info[section] then Ok(Str(info[section][field]))
        else Err(UnknownKey(key))
      else Err(UnknownKey(key))
  }

  /** A key of the form `section.field` succeeds exactly when `section` is one
      of the three version records and `field` is one of its fields; the
      value is then the `str` of that field. */
  lemma {:induction false} VersionValueOfSectionField(config: Config, section: string, field: string)
    requires '.' !in section && '.' !in field
    ensures var r := GetVersionValue(Present(config), section + "." + field);
      && (r.Ok? <==> section in VersionSections && field in Section(config, section + "_version"))
      && (r.Ok? ==> r.value == Str(Section(config, section + "_version")[field]))
  {
    SplitInTwo(section + "." + field, '.', section, field);
  }

  /** Any key without exactly one dot (`a`, `a.b.c`) is rejected, whatever
      the configuration holds. */
  lemma {:induction false} VersionValueNeedsOneDot(config: Config, key: string)
    requires Count(key, '.') != 1
    ensures GetVersionValue(Present(config), key) == Err(UnknownKey(key))
  {
  }

  /** Exit status of running the script. With a key argument: 0 when the
      value is found, 1 on an unknown key or a missing file. Without one it
      prints the configuration, or the not-found message, and exits 0. */
  function ExitStatus(file: ConfigFile, args: seq<string>): (status: int)
    ensures |args| > 0 ==> (status == 0 <==> GetVersionValue(file, args[0]).Ok?)
    ensures |args| > 0 && status != 0 ==> status == 1
    ensures |args| == 0 ==> status == 0
  {
    if |args| > 0 then
      match GetVersionValue(file, args[0])
      case Ok(_) => 0
      case Err(_) => 1
    else 0
  }
}
