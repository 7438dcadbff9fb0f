/** The config-suite runner: its lenient mode resolution, the expansion and
    de-duplication of the `--configs` arguments, the alignment of
    `--profiles` with the configs, and the list overrides. */
module ConfigSuite {
  import opened Common
  import opened Config
  import opened Ordering
  import opened Strings
  import Cli
  import RunJob
  import JobManifest

  /** The message when a mode is still missing after the profile. */
  const ModesRequired := "processing_mode and csv_mode are required (supply --profile or explicit --processing-mode/--csv-mode)."

  /** The message when `--profiles` and `--configs` differ in length. */
  const ProfilesLengthMismatch := "If --profiles is provided, it must have the same length as --configs."

  /** The start of the message for a config argument that matches nothing. */
  const ConfigNotFound := "Config not found: "

  /** `profiles.get(profile) or {}`: a missing or null profile is empty. */
  function SuiteProfile(cfg: Cfg, profile: string): (p: Profile)
    ensures profile !in cfg.profiles ==> p == EmptyProfile
    ensures profile in cfg.profiles ==> p == ProfileOrEmpty(cfg, profile)
  {
    if profile in cfg.profiles then ProfileOrEmpty(cfg, profile) else EmptyProfile
  }

  /** The modes and lists before the check that both modes are set. */
  function Chosen(cfg: Cfg, profile: Option<string>, processingMode: Option<string>, csvMode: Option<string>)
    : (c: (Option<string>, Option<string>, seq<string>, seq<string>))
    ensures Truthy(processingMode) ==> c.0 == processingMode
    ensures Truthy(csvMode) ==> c.1 == csvMode
  {
    if Truthy(profile) then
      var prof := SuiteProfile(cfg, profile.value);
      (Or(processingMode, prof.processingMode), Or(csvMode, prof.csvMode),
       ListOr(prof.plottingModes, []), ListOr(prof.aggregateModes, []))
    else (processingMode, csvMode, [], [])
  }

  /** `resolve_modes`: like the job runner's, except that an unknown profile
      reads as an empty one instead of raising. */
  function ResolveModes(cfg: Cfg, profile: Option<string>, processingMode: Option<string>, csvMode: Option<string>)
    : (r: Result<ModeChoice>)
    ensures r.Err? ==>
      r == Err(ValueError(ModesRequired))
    ensures Truthy(processingMode) && Truthy(csvMode) ==> r.Ok?
    ensures r.Ok? && Truthy(processingMode) ==> r.value.processingMode == processingMode.value
    ensures r.Ok? && Truthy(csvMode) ==> r.value.csvMode == csvMode.value
    ensures r.Ok? ==> r.value.processingMode != "" && r.value.csvMode != ""
  {
    var (pm, cm, plotting, aggregate) := Chosen(cfg, profile, processingMode, csvMode);
    if !Truthy(pm) || !Truthy(cm) then
      Err(ValueError(ModesRequired))
    else Ok(ModeChoice(pm.value, cm.value, plotting, aggregate))
  }

  /** An unknown profile is no error: the result is the one without a
      profile. */
  lemma UnknownProfileActsAsNone(cfg: Cfg, profile: string, processingMode: Option<string>, csvMode: Option<string>)
    requires profile !in cfg.profiles
    ensures ResolveModes(cfg, Some(profile), processingMode, csvMode) == ResolveModes(cfg, None, processingMode, csvMode)
  {
    if profile != "" {
      assert SuiteProfile(cfg, profile) == EmptyProfile;
      assert Chosen(cfg, Some(profile), processingMode, csvMode)
        == (Or(processingMode, None), Or(csvMode, None), [], []);
    }
  }

  lemma AgreesWithRunJobOnProfile(cfg: Cfg, profile: string, processingMode: string, csvMode: string)
    requires profile != "" && profile in cfg.profiles
    ensures ResolveModes(cfg, Some(profile), Some(processingMode), Some(csvMode))
      == (var r := RunJob.ResolveModes(cfg, profile, processingMode, csvMode);
          if r.Ok? then r else Err(ValueError(ModesRequired)))
  {
    var prof := ProfileOrEmpty(cfg, profile);
    assert Chosen(cfg, Some(profile), Some(processingMode), Some(csvMode))
      == (Or(Some(processingMode), prof.processingMode), Or(Some(csvMode), prof.csvMode),
          ListOr(prof.plottingModes, []), ListOr(prof.aggregateModes, []));
  }

  lemma AgreesWithRunJobWithoutProfile(cfg: Cfg, processingMode: string, csvMode: string)
    ensures ResolveModes(cfg, Some(""), Some(processingMode), Some(csvMode))
      == (var r := RunJob.ResolveModes(cfg, "", processingMode, csvMode);
          if r.Ok? then r else Err(ValueError(ModesRequired)))
  {
    assert Chosen(cfg, Some(""), Some(processingMode), Some(csvMode)) == (Some(processingMode), Some(csvMode), [], []);
  }

  /** For a known profile (or none) the suite and the job runner choose the
      same modes and lists, and fail on the same inputs; only the message
      differs. */
  lemma AgreesWithRunJob(cfg: Cfg, profile: string, processingMode: string, csvMode: string)
    requires profile == "" || profile in cfg.profiles
    ensures ResolveModes(cfg, Some(profile), Some(processingMode), Some(csvMode))
      == (var r := RunJob.ResolveModes(cfg, profile, processingMode, csvMode);
          if r.Ok? then r else Err(ValueError(ModesRequired)))
  {
    if profile != "" {
      AgreesWithRunJobOnProfile(cfg, profile, processingMode, csvMode);
    } else {
      AgreesWithRunJobWithoutProfile(cfg, processingMode, csvMode);
    }
  }

  /** The suite accepts a profile the configuration does not define when
      both modes are explicit, yet the manifest step, which receives the
      same `--profile`, rejects it. */
  lemma ManifestRejectsWhatSuiteAccepts(cfg: Cfg, profile: string, processingMode: string, csvMode: string)
    requires profile != "" && profile !in cfg.profiles && processingMode != "" && csvMode != ""
    ensures ResolveModes(cfg, Some(profile), Some(processingMode), Some(csvMode)).Ok?
    ensures JobManifest.ResolveModes(cfg, Some(profile), Some(processingMode), Some(csvMode))
      == Err(ValueError(Cli.UnknownProfile + profile))
  {
  }

  // ----- collect_configs -----

  /** How the filesystem answers for one `--configs` argument: whether it is
      a directory, the directory's `*.yaml` / `*.yml` entries, and the
      matches of the argument as a glob. Every path is given in the
      normalised text form `str(Path(m))`, so two paths are equal as strings
      exactly when they are equal as `Path`s, and the `p not in seen` test
      of the de-duplication compares strings. */
  datatype Fs = Fs(
    isDir: string -> bool,
    listDir: (string, string) -> seq<string>,
    glob: string -> seq<string>)

  /** The paths one argument contributes: a directory's sorted `*.yaml`
      entries then its sorted `*.yml` entries; otherwise the glob matches
      in the order `glob` reports them, and no match is a
      `FileNotFoundError`. A directory listing has no repeated entry, so
      `sorted` is modelled as `SortedDistinct`. */
  function ArgPaths(arg: string, fs: Fs): (r: Result<seq<string>>)
    ensures r.Err? <==> !fs.isDir(arg) && fs.glob(arg) == []
    ensures r.Err? ==> r.error == FileNotFoundError(ConfigNotFound + arg)
  {
    if fs.isDir(arg) then
      PathLtIsStrictTotalOrder();
      Ok(SortedDistinct(fs.listDir(arg, "*.yaml"), PathLt) + SortedDistinct(fs.listDir(arg, "*.yml"), PathLt))
    else if fs.glob(arg) != [] then Ok(fs.glob(arg))
    else Err(FileNotFoundError(ConfigNotFound + arg))
  }

  /** The list `paths` after every argument, or the error of the first
      argument that matched nothing. */
  function Expanded(args: seq<string>, fs: Fs): (r: Result<seq<string>>)
    decreases |args|
  {
    if args == [] then Ok([])
    else
      var init := Expanded(args[..|args| - 1], fs);
      if init.Err? then init
      else
        var last := ArgPaths(args[|args| - 1], fs);
        if last.Err? then Err(last.error) else Ok(init.value + last.value)
  }

  /** The expansion fails exactly when some argument matches nothing, and
      then with the error of the first such argument. */
  lemma {:induction false} ExpandedFailsAtFirstMissing(args: seq<string>, fs: Fs)
    ensures Expanded(args, fs).Err? <==> exists i :: 0 <= i < |args| && ArgPaths(args[i], fs).Err?
    ensures Expanded(args, fs).Err? ==>
      exists i :: 0 <= i < |args| && ArgPaths(args[i], fs).Err? && Expanded(args, fs).error == ArgPaths(args[i], fs).error
        && forall j :: 0 <= j < i ==> ArgPaths(args[j], fs).Ok?
    decreases |args|
  {
    if args != [] {
      var init := args[..|args| - 1];
      ExpandedFailsAtFirstMissing(init, fs);
      assert forall j :: 0 <= j < |init| ==> init[j] == args[j];
      if Expanded(init, fs).Ok? && ArgPaths(args[|args| - 1], fs).Err? {
        assert forall j :: 0 <= j < |init| ==> ArgPaths(args[j], fs).Ok?;
      }
    }
  }

  /** A successful expansion extends that of the arguments before the last. */
  lemma ExpandedStep(args: seq<string>, fs: Fs)
    requires args != [] && Expanded(args, fs).Ok?
    ensures var n := |args| - 1;
      Expanded(args[..n], fs).Ok? && ArgPaths(args[n], fs).Ok?
      && Expanded(args, fs).value == Expanded(args[..n], fs).value + ArgPaths(args[n], fs).value
  {
  }

  /** A kept path comes from some argument. */
  lemma {:induction false} ExpandedSource(args: seq<string>, fs: Fs, p: string) returns (i: nat)
    requires Expanded(args, fs).Ok? && p in Expanded(args, fs).value
    ensures i < |args| && ArgPaths(args[i], fs).Ok? && p in ArgPaths(args[i], fs).value
    decreases |args|
  {
    var n := |args| - 1;
    ExpandedStep(args, fs);
    if p in Expanded(args[..n], fs).value {
      i := ExpandedSource(args[..n], fs, p);
      assert args[..n][i] == args[i];
    } else {
      i := n;
    }
  }

  /** Every argument's paths are kept. */
  lemma {:induction false} ExpandedKeeps(args: seq<string>, fs: Fs, i: nat)
    requires Expanded(args, fs).Ok? && i < |args|
    ensures ArgPaths(args[i], fs).Ok?
    ensures forall p :: p in ArgPaths(args[i], fs).value ==> p in Expanded(args, fs).value
    decreases |args|
  {
    var n := |args| - 1;
    ExpandedStep(args, fs);
    if i < n {
      ExpandedKeeps(args[..n], fs, i);
      assert args[..n][i] == args[i];
    }
  }

  /** A path is kept exactly when some argument contributes it. */
  lemma ExpandedMembers(args: seq<string>, fs: Fs)
    requires Expanded(args, fs).Ok?
    ensures forall i :: 0 <= i < |args| ==> ArgPaths(args[i], fs).Ok?
    ensures forall p :: p in Expanded(args, fs).value <==>
      exists i :: 0 <= i < |args| && p in ArgPaths(args[i], fs).value
  {
    forall i | 0 <= i < |args| ensures ArgPaths(args[i], fs).Ok? {
      ExpandedKeeps(args, fs, i);
    }
    forall p ensures p in Expanded(args, fs).value <==> exists i :: 0 <= i < |args| && p in ArgPaths(args[i], fs).value {
      if p in Expanded(args, fs).value {
        var i := ExpandedSource(args, fs, p);
      }
      if exists i :: 0 <= i < |args| && p in ArgPaths(args[i], fs).value {
        var i :| 0 <= i < |args| && p in ArgPaths(args[i], fs).value;
        ExpandedKeeps(args, fs, i);
      }
    }
  }

  /** One step of the `--configs` loop. */
  method ExtendPaths(paths: seq<string>, arg: string, fs: Fs) returns (r: Result<seq<string>>)
    ensures r == (var step := ArgPaths(arg, fs); if step.Err? then Err(step.error) else Ok(paths + step.value))
  {
    if fs.isDir(arg) {
      PathLtIsStrictTotalOrder();
      var yaml := SortedDistinct(fs.listDir(arg, "*.yaml"), PathLt);
      var yml := SortedDistinct(fs.listDir(arg, "*.yml"), PathLt);
      assert paths + yaml + yml == paths + (yaml + yml);
      return Ok(paths + yaml + yml);
    }
    var matches := fs.glob(arg);
    if matches != [] {
      return Ok(paths + matches);
    }
    return Err(FileNotFoundError(ConfigNotFound + arg));
  }

  /** The `seen` loop: keep each path's first occurrence. */
  method DedupPaths(paths: seq<string>) returns (seen: seq<string>)
    ensures seen == Dedup(paths)
  {
    seen := [];
    for i := 0 to |paths|
      invariant seen == Dedup(paths[..i])
    {
      assert paths[..i + 1][..i] == paths[..i];
      if paths[i] !in seen {
        seen := seen + [paths[i]];
      }
    }
    assert paths[..|paths|] == paths;
  }

  /** `collect_configs`: the expanded paths without repetitions, first
      occurrences in order. */
  method CollectConfigs(args: seq<string>, fs: Fs) returns (r: Result<seq<string>>)
    ensures Expanded(args, fs).Err? ==> r == Err(Expanded(args, fs).error)
    ensures Expanded(args, fs).Ok? ==> r == Ok(Dedup(Expanded(args, fs).value))
  {
    var paths: seq<string> := [];
    for i := 0 to |args|
      invariant Expanded(args[..i], fs) == Ok(paths)
    {
      assert args[..i + 1][..i] == args[..i];
      var step := ExtendPaths(paths, args[i], fs);
      if step.Err? {
        assert Expanded(args[..i + 1], fs).Err?;
        ExpandedPrefixFails(args, i + 1, fs);
        return Err(step.error);
      }
      paths := step.value;
    }
    assert args[..|args|] == args;
    var seen := DedupPaths(paths);
    return Ok(seen);
  }

  /** Once a prefix of the arguments fails, the whole list fails the same
      way. */
  lemma {:induction false} ExpandedPrefixFails(args: seq<string>, n: nat, fs: Fs)
    requires n <= |args| && Expanded(args[..n], fs).Err?
    ensures Expanded(args, fs) == Expanded(args[..n], fs)
    decreases |args| - n
  {
    if n < |args| {
      var m := n + 1;
      assert args[..m][..n] == args[..n];
      ExpandedPrefixFails(args, m, fs);
    } else {
      assert args[..n] == args;
    }
  }

  // ----- main -----

  /** `profiles_for_configs`: a non-empty `--profiles` must give one profile
      per config; otherwise the single `--profile` (possibly none) is used
      for every config. */
  function ProfilesFor(profiles: Option<seq<string>>, profile: Option<string>, n: nat): (r: Result<seq<Option<string>>>)
    ensures profiles.Some? && profiles.value != [] && |profiles.value| != n ==>
      r == Err(ValueError(ProfilesLengthMismatch))
    ensures r.Ok? ==> |r.value| == n
    ensures r.Ok? && profiles.Some? && profiles.value != [] ==>
      forall i :: 0 <= i < n ==> r.value[i] == Some(profiles.value[i])
    ensures (profiles.None? || profiles.value == []) ==> r.Ok? && forall i :: 0 <= i < n ==> r.value[i] == profile
  {
    if profiles.Some? && profiles.value != [] then
      if |profiles.value| != n then Err(ValueError(ProfilesLengthMismatch))
      else Ok(seq(n, i requires 0 <= i < n => Some(profiles.value[i])))
    else Ok(seq(n, _ => profile))
  }

  /** `profiles_for_configs[cfg_paths.index(cfg_path)]`: on the
      de-duplicated list the index of a path is its position, so the i-th
      config gets the i-th profile. */
  lemma ProfileIsPositional(cfgPaths: seq<string>, i: nat)
    requires NoDuplicates(cfgPaths) && i < |cfgPaths|
    ensures FirstIndex(cfgPaths, cfgPaths[i]) == i
  {
    var k := FirstIndex(cfgPaths, cfgPaths[i]);
    FirstIndexIsLeast(cfgPaths, cfgPaths[i], i);
    assert cfgPaths[k] == cfgPaths[i];
  }

  /** The modes one config runs with: the resolved modes, with the command
      line's plotting and aggregate lists replacing the profile's whenever
      they were given, even empty. */
  function ConfigModes(cfg: Cfg, profile: Option<string>, processingMode: Option<string>, csvMode: Option<string>,
                       plottingModes: Option<seq<string>>, aggregateModes: Option<seq<string>>): (r: Result<ModeChoice>)
    ensures r.Ok? <==> ResolveModes(cfg, profile, processingMode, csvMode).Ok?
    ensures r.Ok? ==>
      var base := ResolveModes(cfg, profile, processingMode, csvMode).value;
      r.value.processingMode == base.processingMode && r.value.csvMode == base.csvMode
      && r.value.plottingModes == (if plottingModes.Some? then plottingModes.value else base.plottingModes)
      && r.value.aggregateModes == (if aggregateModes.Some? then aggregateModes.value else base.aggregateModes)
  {
    var base := ResolveModes(cfg, profile, processingMode, csvMode);
    if base.Err? then base
    else
      var plotting := if plottingModes.Some? then plottingModes.value else base.value.plottingModes;
      var aggregate := if aggregateModes.Some? then aggregateModes.value else base.value.aggregateModes;
      Ok(base.value.(plottingModes := plotting, aggregateModes := aggregate))
  }
}
