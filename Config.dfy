/** The parts of the loaded YAML/JSON configuration that the modelled code
    reads, as typed records. A key that may be missing or null is an
    `Option`, read as `get(...) or default` reads it. A section (`profiles`,
    `result_schemas`, `summarize`) is a plain, possibly empty map, and a
    missing one reads as empty, as `get(key, {})` gives; `modes` and
    `csv_modes` are an `Option` of a map because the manifest builder tests
    whether the key is present. A null section, which the program keeps and
    then fails on, has no value here. */
module Config {
  import opened Common

  /** An entry of `profiles`: defaults for the mode selections. */
  datatype Profile = Profile(
    processingMode: Option<string>,
    csvMode: Option<string>,
    plottingModes: Option<seq<string>>,
    aggregateModes: Option<seq<string>>)

  /** `prof = profiles[name] or {}`: a null profile reads as this one. */
  const EmptyProfile := Profile(None, None, None, None)

  /** One entry of `columns` in a CSV mode: `name`, the result key `from`
      and an optional `default` (missing = `""`). `default` is read with
      `get("default", "")`, which keeps an explicit null, so a null default
      is `Some(JNull)`, not `None`. */
  datatype ColumnDef = ColumnDef(name: string, from: Option<string>, default: Option<Json>)

  /** A truthy CSV mode: its columns (missing = `[]`) and the
      `on_missing_field` policy (missing = `warn_null`). */
  datatype CsvDef = CsvDef(columns: seq<ColumnDef>, onMissingField: Option<string>)

  /** One entry of `fields` in a result schema; `type` missing = `"string"`. */
  datatype FieldDef = FieldDef(field: string, column: string, typ: Option<string>)

  datatype ResultSchema = ResultSchema(fields: seq<FieldDef>)

  /** The `collect` block of a job. */
  datatype CollectSettings = CollectSettings(job: Option<string>, outRoot: Option<string>, enable: bool)

  /** An entry of `jobs`: every key optional. */
  datatype Job = Job(
    inputRoot: Option<string>,
    outputRoot: Option<string>,
    runNameTemplate: Option<string>,
    profile: Option<string>,
    processingMode: Option<string>,
    csvMode: Option<string>,
    pattern: Option<string>,
    plottingModes: Option<seq<string>>,
    aggregateModes: Option<seq<string>>,
    collect: Option<CollectSettings>,
    py2Exe: Option<string>)

  /** `jobs[name] or {}`: a null job reads as this one. */
  const EmptyJob := Job(None, None, None, None, None, None, None, None, None, None, None)

  /** The configuration. `csvModes` maps a name to `None` when its value is
      falsy (null or an empty mapping). The opaque sections that are only
      copied into a manifest are kept as dynamic values. */
  datatype Cfg = Cfg(
    profiles: map<string, Option<Profile>>,
    modes: Option<map<string, Json>>,
    csvModes: Option<map<string, Option<CsvDef>>>,
    resultSchemas: map<string, ResultSchema>,
    grid: Option<Json>,
    channelDefaults: Option<Json>,
    unitConversions: Option<Json>,
    jobs: map<string, Option<Job>>,
    summarizeRecursive: bool)

  /** The four mode selections of a run: processing and CSV mode, and the
      plotting and aggregate mode lists. */
  datatype ModeChoice = ModeChoice(
    processingMode: string,
    csvMode: string,
    plottingModes: seq<string>,
    aggregateModes: seq<string>)

  /** `profiles[name] or {}` for a known profile name. */
  function ProfileOrEmpty(cfg: Cfg, name: string): (p: Profile)
    requires name in cfg.profiles
    ensures cfg.profiles[name].Some? ==> p == cfg.profiles[name].value
    ensures cfg.profiles[name].None? ==> p == EmptyProfile
  {
    if cfg.profiles[name].Some? then cfg.profiles[name].value else EmptyProfile
  }

  /** `cfg.get("csv_modes", {})` */
  function CsvModes(cfg: Cfg): map<string, Option<CsvDef>> {
    if cfg.csvModes.Some? then cfg.csvModes.value else map[]
  }

  /** `cfg.get("modes", {})` */
  function Modes(cfg: Cfg): map<string, Json> {
    if cfg.modes.Some? then cfg.modes.value else map[]
  }
}
