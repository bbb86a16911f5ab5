/** The build configuration service: it reads the build configurations
    from the workspace's `.theia/builds.json`, restores the active one from
    its saved name and remembers the one the user picks. */
module BuildConfigurations {
  import opened Wrappers
  import opened Sequences

  datatype BuildConfiguration = BuildConfiguration(name: string, directory: string)

  /** A parsed JSON value, as far as the builds schema looks at it: objects,
      arrays, strings, and every other value. */
  datatype Json =
    | JObject(fields: map<string, Json>)
    | JArray(items: seq<Json>)
    | JString(s: string)
    | JOther

  /** What reading `.theia/builds.json` gave: no file (or another failure
      to read it), text the JSON parser reported errors on, or a parsed
      value. */
  datatype BuildsFile = MissingFile | SyntaxErrors | ParsedFile(value: Json)

  /** Why a read file is reported to the user. */
  datatype ErrorReport = InvalidJsonSyntax | SchemaViolation

  /** The configurations `loadConfigurations` settles with, and the error it
      reported, if any. */
  datatype Loaded = Loaded(configs: seq<BuildConfiguration>, reported: Option<ErrorReport>)

  const NoWorkspaceRoot := "No workspace root."

  /** One entry of `builds` as the schema requires it: an object with
      string `name` and `directory`. */
  predicate ValidBuild(item: Json) {
    && item.JObject?
    && "name" in item.fields && item.fields["name"].JString?
    && "directory" in item.fields && item.fields["directory"].JString?
  }

  /** `BUILDS_JSON_SCHEMA`: an object whose `builds`, when present, is an
      array of valid entries. */
  predicate MatchesSchema(document: Json) {
    && document.JObject?
    && ("builds" in document.fields ==>
          && document.fields["builds"].JArray?
          && forall k :: 0 <= k < |document.fields["builds"].items| ==> ValidBuild(document.fields["builds"].items[k]))
  }

  function AsBuildConfiguration(item: Json): (c: BuildConfiguration)
    requires ValidBuild(item)
    ensures c.name == item.fields["name"].s && c.directory == item.fields["directory"].s
  {
    BuildConfiguration(item.fields["name"].s, item.fields["directory"].s)
  }

  /** `loadConfigurations`: without a workspace root it rejects; a missing
      file gives no configurations and no report; text with syntax errors,
      or a value the schema rejects, gives none and one report; a valid
      document gives its `builds`, or none when it has no `builds`. */
  function LoadConfigurations(hasRoot: bool, file: BuildsFile): (r: Result<Loaded, string>)
    ensures r.Err? <==> !hasRoot
    ensures r.Ok? && r.value.reported.Some? ==> r.value.configs == []
    ensures hasRoot && file.MissingFile? ==> r == Ok(Loaded([], None))
    ensures hasRoot && file.SyntaxErrors? ==> r == Ok(Loaded([], Some(InvalidJsonSyntax)))
    ensures hasRoot && file.ParsedFile? ==> (r.value.reported.Some? <==> !MatchesSchema(file.value))
    ensures hasRoot && file.ParsedFile? && MatchesSchema(file.value) ==>
      var fields := file.value.fields;
      && ("builds" !in fields ==> r.value.configs == [])
      && ("builds" in fields ==>
            && |r.value.configs| == |fields["builds"].items|
            && forall k :: 0 <= k < |r.value.configs| ==>
                 r.value.configs[k] == AsBuildConfiguration(fields["builds"].items[k]))
  {
    if !hasRoot then Err(NoWorkspaceRoot)
    else
      match file
      case MissingFile => Ok(Loaded([], None))
      case SyntaxErrors => Ok(Loaded([], Some(InvalidJsonSyntax)))
      case ParsedFile(document) =>
        if !MatchesSchema(document) then Ok(Loaded([], Some(SchemaViolation)))
        else if "builds" !in document.fields then Ok(Loaded([], None))
        else
          var items := document.fields["builds"].items;
          Ok(Loaded(seq(|items|, k requires 0 <= k < |items| => AsBuildConfiguration(items[k])), None))
  }

  /** The JSON text `JSON.stringify({ builds })` writes, once parsed. */
  function BuildsDocument(builds: seq<BuildConfiguration>): (document: Json)
    ensures document.JObject? && "builds" in document.fields && document.fields["builds"].JArray?
    ensures |document.fields["builds"].items| == |builds|
  {
    var items := seq(|builds|, k requires 0 <= k < |builds| => BuildObject(builds[k]));
    JObject(map["builds" := JArray(items)])
  }

  function BuildObject(c: BuildConfiguration): (item: Json)
    ensures ValidBuild(item) && AsBuildConfiguration(item) == c
  {
    JObject(map["name" := JString(c.name), "directory" := JString(c.directory)])
  }

  /** Writing a list of builds to `builds.json` and loading it gives the
      same list back, with nothing reported. */
  lemma BuildsRoundTrip(builds: seq<BuildConfiguration>)
    ensures LoadConfigurations(true, ParsedFile(BuildsDocument(builds))) == Ok(Loaded(builds, None))
  {
    var document := BuildsDocument(builds);
    var items := document.fields["builds"].items;
    forall k | 0 <= k < |items| ensures ValidBuild(items[k]) && AsBuildConfiguration(items[k]) == builds[k] {
    }
    assert MatchesSchema(document);
    var configs := LoadConfigurations(true, ParsedFile(document)).value.configs;
    assert configs == builds;
  }

  /** What the storage service holds under the active configuration's key. */
  datatype SavedActiveBuildConfiguration = SavedActiveBuildConfiguration(configName: Option<string>)

  const ActiveBuildConfigurationStorageKey := "active-build-configuration"

  function HasName(name: string): BuildConfiguration -> bool {
    (c: BuildConfiguration) => c.name == name
  }

  /** `loadActiveConfiguration`: the first loaded configuration carrying
      the saved name; nothing when no name is saved. The loaded
      configurations are only awaited when a name is saved, so only then
      does their rejection reject. */
  function LoadActiveConfiguration(saved: Option<SavedActiveBuildConfiguration>,
                                   configurations: Result<seq<BuildConfiguration>, string>)
    : (r: Result<Option<BuildConfiguration>, string>)
    ensures saved.None? || saved.value.configName.None? ==> r == Ok(None)
    ensures r.Err? <==> saved.Some? && saved.value.configName.Some? && configurations.Err?
    ensures r.Ok? && r.value.Some? ==>
      && saved.Some? && saved.value.configName.Some? && configurations.Ok?
      && exists k :: 0 <= k < |configurations.value|
           && configurations.value[k] == r.value.value
           && r.value.value.name == saved.value.configName.value
           && forall j :: 0 <= j < k ==> configurations.value[j].name != saved.value.configName.value
    ensures saved.Some? && saved.value.configName.Some? && configurations.Ok? ==>
      (r.value.None? <==> forall k :: 0 <= k < |configurations.value| ==>
                           configurations.value[k].name != saved.value.configName.value)
  {
    if saved.None? || saved.value.configName.None? then Ok(None)
    else if configurations.Err? then Err(configurations.error)
    else Ok(Find(configurations.value, HasName(saved.value.configName.value)))
  }

  /** `saveActiveConfiguration`: what is stored for a chosen configuration. */
  function SavedFor(config: Option<BuildConfiguration>): (saved: SavedActiveBuildConfiguration)
    ensures config.None? ==> saved.configName.None?
    ensures config.Some? ==> saved.configName == Some(config.value.name)
  {
    SavedActiveBuildConfiguration(if config.Some? then Some(config.value.name) else None)
  }

  /** A choice made and saved is the one restored on the next start, when
      no earlier configuration has its name; no choice restores none. */
  lemma SavedChoiceRestored(config: Option<BuildConfiguration>, configs: seq<BuildConfiguration>)
    requires config.Some? ==> config.value in configs
    requires config.Some? ==> forall c :: c in configs && c.name == config.value.name ==> c == config.value
    ensures LoadActiveConfiguration(Some(SavedFor(config)), Ok(configs)) == Ok(config)
  {
    if config.Some? {
      var r := LoadActiveConfiguration(Some(SavedFor(config)), Ok(configs));
      var k :| 0 <= k < |configs| && configs[k] == config.value;
      assert r.value.Some?;
      var j :| 0 <= j < |configs| && configs[j] == r.value.value && r.value.value.name == config.value.name;
    }
  }

  /** The service's state: the loaded configurations and the active one
      (each a settled promise, `Err` for a rejection), the storage
      service's data, the errors shown to the user and the values the
      change event fired with. */
  class BuildConfigurationService {
    var configurations: Result<seq<BuildConfiguration>, string>
    var activeConfiguration: Result<Option<BuildConfiguration>, string>
    var storage: map<string, SavedActiveBuildConfiguration>
    var errorsShown: seq<ErrorReport>
    var fired: seq<Option<BuildConfiguration>>

    /** `init`, after construction: the workspace root's presence, the
        builds file and the storage's data are inputs. */
    constructor(hasRoot: bool, file: BuildsFile, storage: map<string, SavedActiveBuildConfiguration>)
      ensures LoadConfigurations(hasRoot, file).Err? ==> configurations == Err(NoWorkspaceRoot)
      ensures LoadConfigurations(hasRoot, file).Ok? ==> configurations == Ok(LoadConfigurations(hasRoot, file).value.configs)
      ensures activeConfiguration == LoadActiveConfiguration(
                if ActiveBuildConfigurationStorageKey in storage then Some(storage[ActiveBuildConfigurationStorageKey]) else None,
                configurations)
      ensures this.storage == storage
      ensures LoadConfigurations(hasRoot, file).Ok? && LoadConfigurations(hasRoot, file).value.reported.Some?
              ==> errorsShown == [LoadConfigurations(hasRoot, file).value.reported.value]
      ensures (LoadConfigurations(hasRoot, file).Err? || LoadConfigurations(hasRoot, file).value.reported.None?)
              ==> errorsShown == []
      ensures activeConfiguration.Ok? ==> fired == [activeConfiguration.value]
      ensures activeConfiguration.Err? ==> fired == []
    {
      var loaded := LoadConfigurations(hasRoot, file);
      var configs: Result<seq<BuildConfiguration>, string>;
      var shown: seq<ErrorReport> := [];
      if loaded.Err? {
        configs := Err(loaded.error);
      } else {
        configs := Ok(loaded.value.configs);
        if loaded.value.reported.Some? {
          shown := [loaded.value.reported.value];
        }
      }
      var saved := if ActiveBuildConfigurationStorageKey in storage then Some(storage[ActiveBuildConfigurationStorageKey]) else None;
      var active := LoadActiveConfiguration(saved, configs);
      configurations := configs;
      errorsShown := shown;
      this.storage := storage;
      activeConfiguration := active;
      fired := if active.Ok? then [active.value] else [];
    }

    /** `getActiveConfiguration`. */
    method GetActiveConfiguration() returns (r: Result<Option<BuildConfiguration>, string>)
      ensures r == activeConfiguration
    {
      r := activeConfiguration;
    }

    /** `getConfigurations`. */
    method GetConfigurations() returns (r: Result<seq<BuildConfiguration>, string>)
      ensures r == configurations
    {
      r := configurations;
    }

    /** `changeActiveConfiguration`: the choice becomes the active
        configuration, its name is saved (none for no choice) and the change
        event fires with it. */
    method ChangeActiveConfiguration(config: Option<BuildConfiguration>)
      modifies this
      ensures activeConfiguration == Ok(config)
      ensures storage == old(storage)[ActiveBuildConfigurationStorageKey := SavedFor(config)]
      ensures fired == old(fired) + [config]
      ensures configurations == old(configurations) && errorsShown == old(errorsShown)
    {
      activeConfiguration := Ok(config);
      storage := storage[ActiveBuildConfigurationStorageKey := SavedFor(config)];
      fired := fired + [config];
    }
  }
}
