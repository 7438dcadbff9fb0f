/** The job runner's decisions before it starts any subprocess: mode
    resolution, the command-line overrides of a job's keys, the required
    input root, the run-name template, the optional collect step and the
    precedence between job-level and profile-level mode lists. */
module RunJob {
  import opened Common
  import opened Config
  import opened Strings
  import Cli

  /** The message when a mode is still missing after the profile. */
  const ModesRequired := "processing_mode and csv_mode are required (supply profile or explicit job fields)."

  /** The message for a job the config does not define: the name goes between these two. */
  const UnknownJobStart := "Unknown job '"

  /** The end of the unknown-job message. */
  const UnknownJobEnd := "' (define under jobs in config)."

  /** The end of the message for a job without an input root, after `jobs.<name>`. */
  const InputRootRequired := ".input_root is required"

  /** The end of the message for an enabled collect step without a job, after `jobs.<name>`. */
  const CollectJobRequired := ".collect.job is required when collect.enable is true"

  /** The start of the messages about one job's keys. */
  const JobsPrefix := "jobs."

  /** `_resolve_modes`: an unknown profile is a `ValueError`; explicit modes
      win; the lists come from the profile (`[]` when there is no profile
      or it has none); both modes must be non-empty. */
  function ResolveModes(cfg: Cfg, profile: string, processingMode: string, csvMode: string): (r: Result<ModeChoice>)
    ensures profile != "" && profile !in cfg.profiles ==> r == Err(ValueError(Cli.UnknownProfile + profile))
    ensures r.Ok? ==> r.value.processingMode != "" && r.value.csvMode != ""
    ensures r.Ok? && processingMode != "" ==> r.value.processingMode == processingMode
    ensures r.Ok? && csvMode != "" ==> r.value.csvMode == csvMode
    ensures r.Ok? && profile == "" ==> r.value == ModeChoice(processingMode, csvMode, [], [])
    ensures r.Ok? && profile != "" ==>
      r.value.plottingModes == ListOr(ProfileOrEmpty(cfg, profile).plottingModes, [])
      && r.value.aggregateModes == ListOr(ProfileOrEmpty(cfg, profile).aggregateModes, [])
    ensures r.Err? && (profile == "" || profile in cfg.profiles) ==>
      r == Err(ValueError(ModesRequired))
    ensures profile == "" ==>
      (r.Ok? <==> processingMode != "" && csvMode != "")
    ensures profile != "" && profile in cfg.profiles && cfg.profiles[profile].None? ==>
      r == (if processingMode != "" && csvMode != "" then Ok(ModeChoice(processingMode, csvMode, [], []))
            else Err(ValueError(ModesRequired)))
    ensures profile != "" && profile in cfg.profiles ==>
      var prof := ProfileOrEmpty(cfg, profile);
      (Truthy(Or(Some(processingMode), prof.processingMode)) && Truthy(Or(Some(csvMode), prof.csvMode))
       <==> r.Ok?)
      && (r.Ok? ==> r.value == ModeChoice(Or(Some(processingMode), prof.processingMode).value,
                                          Or(Some(csvMode), prof.csvMode).value,
                                          ListOr(prof.plottingModes, []), ListOr(prof.aggregateModes, [])))
  {
    if profile != "" && profile !in cfg.profiles then Err(ValueError(Cli.UnknownProfile + profile))
    else
      var prof := if profile != "" then ProfileOrEmpty(cfg, profile) else EmptyProfile;
      var pm := if profile != "" then Or(Some(processingMode), prof.processingMode) else Some(processingMode);
      var cm := if profile != "" then Or(Some(csvMode), prof.csvMode) else Some(csvMode);
      var plotting := if profile != "" then ListOr(prof.plottingModes, []) else [];
      var aggregate := if profile != "" then ListOr(prof.aggregateModes, []) else [];
      if !Truthy(pm) || !Truthy(cm) then
        Err(ValueError(ModesRequired))
      else Ok(ModeChoice(pm.value, cm.value, plotting, aggregate))
  }

  /** The runner and the packaged command line accept the same inputs and
      choose the same two modes; only the error messages differ. */
  lemma AgreesWithCli(cfg: Cfg, profile: string, processingMode: string, csvMode: string)
    ensures ResolveModes(cfg, profile, processingMode, csvMode).Ok?
        <==> Cli.ResolveModes(cfg, Some(profile), Some(processingMode), Some(csvMode)).Ok?
    ensures ResolveModes(cfg, profile, processingMode, csvMode).Ok? ==>
      Cli.ResolveModes(cfg, Some(profile), Some(processingMode), Some(csvMode)).value
        == (ResolveModes(cfg, profile, processingMode, csvMode).value.processingMode,
            ResolveModes(cfg, profile, processingMode, csvMode).value.csvMode)
  {
  }

  // ----- command-line overrides -----

  /** The runner's options; an empty string is an option not given. */
  datatype RunArgs = RunArgs(
    job: string,
    inputRoot: string,
    outputRoot: string,
    runName: string,
    profile: string,
    processingMode: string,
    csvMode: string,
    pattern: string,
    plottingModes: string,
    aggregateModes: string,
    collectJob: string,
    collectOutRoot: string,
    noCollect: bool,
    dryRun: bool)

  /** `[m.strip() for m in s.split(",") if m.strip()]` */
  function ModeList(s: string): (ms: seq<string>)
    ensures forall m :: m in ms ==> CleanItem(m, ",")
    ensures forall m :: m in ms <==>
      exists i :: 0 <= i < |SplitOn(s, ",")| && m == Strip(SplitOn(s, ",")[i]) && m != ""
  {
    SplitCleanItems(s, ",");
    SplitCleanContent(s, ",", 0);
    SplitClean(s, ",")
  }

  /** `dict(job.get("collect") or {})` */
  function CollectOrEmpty(job: Job): CollectSettings {
    if job.collect.Some? then job.collect.value else CollectSettings(None, None, false)
  }

  predicate TouchesCollect(a: RunArgs) {
    a.collectJob != "" || a.collectOutRoot != "" || a.noCollect
  }

  /** The collect block after its three options. */
  function CollectOverridden(c: CollectSettings, a: RunArgs): (o: CollectSettings)
    ensures o.job == (if a.collectJob != "" then Some(a.collectJob) else c.job)
    ensures o.outRoot == (if a.collectOutRoot != "" then Some(a.collectOutRoot) else c.outRoot)
    ensures o.enable == (c.enable && !a.noCollect)
  {
    CollectSettings(
      if a.collectJob != "" then Some(a.collectJob) else c.job,
      if a.collectOutRoot != "" then Some(a.collectOutRoot) else c.outRoot,
      if a.noCollect then false else c.enable)
  }

  /** The job after the command-line overrides: a given option replaces its
      own key and nothing else; `py2_exe` has no option and is kept. */
  function Overridden(job: Job, a: RunArgs): (j: Job)
    ensures j.inputRoot == (if a.inputRoot != "" then Some(a.inputRoot) else job.inputRoot)
    ensures j.outputRoot == (if a.outputRoot != "" then Some(a.outputRoot) else job.outputRoot)
    ensures j.runNameTemplate == (if a.runName != "" then Some(a.runName) else job.runNameTemplate)
    ensures j.profile == (if a.profile != "" then Some(a.profile) else job.profile)
    ensures j.processingMode == (if a.processingMode != "" then Some(a.processingMode) else job.processingMode)
    ensures j.csvMode == (if a.csvMode != "" then Some(a.csvMode) else job.csvMode)
    ensures j.pattern == (if a.pattern != "" then Some(a.pattern) else job.pattern)
    ensures j.plottingModes == (if a.plottingModes != "" then Some(ModeList(a.plottingModes)) else job.plottingModes)
    ensures j.aggregateModes == (if a.aggregateModes != "" then Some(ModeList(a.aggregateModes)) else job.aggregateModes)
    ensures j.collect == (if TouchesCollect(a) then Some(CollectOverridden(CollectOrEmpty(job), a)) else job.collect)
    ensures j.py2Exe == job.py2Exe
  {
    Job(
      if a.inputRoot != "" then Some(a.inputRoot) else job.inputRoot,
      if a.outputRoot != "" then Some(a.outputRoot) else job.outputRoot,
      if a.runName != "" then Some(a.runName) else job.runNameTemplate,
      if a.profile != "" then Some(a.profile) else job.profile,
      if a.processingMode != "" then Some(a.processingMode) else job.processingMode,
      if a.csvMode != "" then Some(a.csvMode) else job.csvMode,
      if a.pattern != "" then Some(a.pattern) else job.pattern,
      if a.plottingModes != "" then Some(ModeList(a.plottingModes)) else job.plottingModes,
      if a.aggregateModes != "" then Some(ModeList(a.aggregateModes)) else job.aggregateModes,
      if TouchesCollect(a) then Some(CollectOverridden(CollectOrEmpty(job), a)) else job.collect,
      job.py2Exe)
  }

  /** Overriding twice with the same options changes nothing more. */
  lemma OverridesIdempotent(job: Job, a: RunArgs)
    ensures Overridden(Overridden(job, a), a) == Overridden(job, a)
  {
    var once := Overridden(job, a);
    if TouchesCollect(a) {
      assert CollectOverridden(CollectOrEmpty(once), a) == CollectOverridden(CollectOrEmpty(job), a);
    }
  }

  /** The overrides of the seven single-valued keys. */
  method OverrideSettings(job: Job, a: RunArgs) returns (j: Job)
    ensures j == job.(inputRoot := Overridden(job, a).inputRoot, outputRoot := Overridden(job, a).outputRoot,
                      runNameTemplate := Overridden(job, a).runNameTemplate, profile := Overridden(job, a).profile,
                      processingMode := Overridden(job, a).processingMode, csvMode := Overridden(job, a).csvMode,
                      pattern := Overridden(job, a).pattern)
  {
    j := job;
    if a.inputRoot != "" {
      j := j.(inputRoot := Some(a.inputRoot));
    }
    if a.outputRoot != "" {
      j := j.(outputRoot := Some(a.outputRoot));
    }
    if a.runName != "" {
      j := j.(runNameTemplate := Some(a.runName));
    }
    if a.profile != "" {
      j := j.(profile := Some(a.profile));
    }
    if a.processingMode != "" {
      j := j.(processingMode := Some(a.processingMode));
    }
    if a.csvMode != "" {
      j := j.(csvMode := Some(a.csvMode));
    }
    if a.pattern != "" {
      j := j.(pattern := Some(a.pattern));
    }
  }

  /** The overrides of the two comma-separated mode lists. */
  method OverrideLists(job: Job, a: RunArgs) returns (j: Job)
    ensures j == job.(plottingModes := Overridden(job, a).plottingModes,
                      aggregateModes := Overridden(job, a).aggregateModes)
  {
    j := job;
    if a.plottingModes != "" {
      j := j.(plottingModes := Some(ModeList(a.plottingModes)));
    }
    if a.aggregateModes != "" {
      j := j.(aggregateModes := Some(ModeList(a.aggregateModes)));
    }
  }

  /** The override of the collect block, copied before it is changed. */
  method OverrideCollect(job: Job, a: RunArgs) returns (j: Job)
    ensures j == job.(collect := Overridden(job, a).collect)
  {
    j := job;
    if a.collectJob != "" || a.collectOutRoot != "" || a.noCollect {
      var c := CollectOrEmpty(job);
      if a.collectJob != "" {
        c := c.(job := Some(a.collectJob));
      }
      if a.collectOutRoot != "" {
        c := c.(outRoot := Some(a.collectOutRoot));
      }
      if a.noCollect {
        c := c.(enable := false);
      }
      assert c == CollectOverridden(CollectOrEmpty(job), a);
      j := j.(collect := Some(c));
    }
  }

  /** The key-by-key overrides of `main`, applied to a copy of the job. */
  method ApplyOverrides(job: Job, a: RunArgs) returns (j: Job)
    ensures j == Overridden(job, a)
  {
    j := OverrideSettings(job, a);
    j := OverrideLists(j, a);
    j := OverrideCollect(j, a);
  }

  // ----- run name -----

  const DefaultRunNameTemplate := "{job}_{timestamp}"

  /** `tpl.replace("{job}", job).replace("{timestamp}", stamp)` */
  function RunName(tpl: string, job: string, stamp: string): string {
    Replace(Replace(tpl, "{job}", job), "{timestamp}", stamp)
  }

  /** A template without placeholders is the exact folder name. */
  lemma RunNameWithoutPlaceholders(tpl: string, job: string, stamp: string)
    requires NoBrace(tpl)
    ensures RunName(tpl, job, stamp) == tpl
  {
    assert tpl + "" == tpl;
    ReplaceSkipsPrefix(tpl, "", "{job}", job);
    ReplaceSkipsPrefix(tpl, "", "{timestamp}", stamp);
  }

  /** An absolute, brace-free `--run-name` is the output directory itself:
      `Path(out_root) / "/data/r1"` is `/data/r1`. */
  lemma AbsoluteRunNameIsOutDir(outRoot: string, tpl: string, job: string, stamp: string)
    requires NoBrace(tpl) && IsAbsolute(tpl)
    ensures JoinPath(outRoot, RunName(tpl, job, stamp)) == tpl
  {
    RunNameWithoutPlaceholders(tpl, job, stamp);
  }

  /** The `{timestamp}` placeholder holds no `{job}`. */
  lemma TimestampHoldsNoJob(t: string, pat: string, job: string)
    requires t == "{timestamp}" && pat == "{job}"
    ensures Replace(t, pat, job) == t
  {
    var u := t[1..];
    assert pat[0] !in u by {
      assert u == "timestamp}";
    }
    ReplaceWithoutFirstChar(u, pat, job);
    assert !StartsWith(t, pat) by {
      assert t[1] != pat[1];
    }
    ReplaceMismatch(t, pat, job);
    assert [t[0]] + u == t;
  }

  lemma TimestampSurvivesJobReplace(job: string, rest: string, pat: string)
    requires rest == "_{timestamp}" && pat == "{job}"
    ensures Replace(rest, pat, job) == rest
  {
    var t := rest[1..];
    TimestampHoldsNoJob(t, pat, job);
    assert !StartsWith(rest, pat) by {
      assert rest[0] != pat[0];
    }
    ReplaceMismatch(rest, pat, job);
    assert [rest[0]] + t == rest;
  }

  lemma JobPlaceholderReplaced(tpl: string, job: string, pat: string, rest: string)
    requires tpl == DefaultRunNameTemplate && pat == "{job}" && rest == "_{timestamp}"
    ensures Replace(tpl, pat, job) == job + rest
  {
    assert StartsWith(tpl, pat);
    assert tpl[|pat|..] == rest;
    TimestampSurvivesJobReplace(job, rest, pat);
  }

  lemma TimestampPlaceholderReplaced(job: string, stamp: string, pat: string, rest: string)
    requires NoBrace(job) && pat == "{timestamp}" && rest == "_{timestamp}"
    ensures Replace(job + rest, pat, stamp) == job + "_" + stamp
  {
    assert job + rest == (job + "_") + pat;
    ReplaceSkipsPrefix(job + "_", pat, pat, stamp);
    assert StartsWith(pat, pat);
    assert pat[|pat|..] == "";
  }

  /** The default template gives `<job>_<timestamp>` for a job name without
      braces. */
  lemma DefaultRunName(job: string, stamp: string)
    requires NoBrace(job)
    ensures RunName(DefaultRunNameTemplate, job, stamp) == job + "_" + stamp
  {
    JobPlaceholderReplaced(DefaultRunNameTemplate, job, "{job}", "_{timestamp}");
    TimestampPlaceholderReplaced(job, stamp, "{timestamp}", "_{timestamp}");
  }

  // ----- main -----

  /** The collect step: the collect job and its output root. */
  datatype CollectStep = CollectStep(job: string, outRoot: string)

  /** What `main` goes on to run: either it stops after a dry-run collect
      step, or it runs the manifest, processing, plotting and aggregation
      steps with these settings. */
  datatype Outcome =
    | StopAfterCollect(step: CollectStep)
    | Steps(collect: Option<CollectStep>, inputRoot: string, outDir: string, profile: string,
            modes: ModeChoice, pattern: string, py2Exe: string)

  /** `jobs[name] or {}` for a known job. */
  function JobOrEmpty(cfg: Cfg, name: string): Job
    requires name in cfg.jobs
  {
    if cfg.jobs[name].Some? then cfg.jobs[name].value else EmptyJob
  }

  /** The collect step of an overridden job, when `collect.enable` is set. */
  function CollectOf(job: Job, name: string, outDir: string): (r: Result<Option<CollectStep>>)
    ensures !CollectOrEmpty(job).enable ==> r == Ok(None)
    ensures CollectOrEmpty(job).enable && !Truthy(CollectOrEmpty(job).job) ==>
      r == Err(ValueError(JobsPrefix + name + CollectJobRequired))
    ensures r.Ok? && r.value.Some? ==>
      CollectOrEmpty(job).enable && r.value.value.job == CollectOrEmpty(job).job.value && r.value.value.job != ""
    ensures CollectOrEmpty(job).enable && Truthy(CollectOrEmpty(job).job) ==>
      r == Ok(Some(CollectStep(CollectOrEmpty(job).job.value,
                               if Truthy(CollectOrEmpty(job).outRoot) then CollectOrEmpty(job).outRoot.value
                               else JoinPath(outDir, CollectDirName))))
  {
    var c := CollectOrEmpty(job);
    if !c.enable then Ok(None)
    else if !Truthy(c.job) then
      Err(ValueError(JobsPrefix + name + CollectJobRequired))
    else
      Ok(Some(CollectStep(c.job.value, if Truthy(c.outRoot) then c.outRoot.value else JoinPath(outDir, CollectDirName))))
  }

  /** The defaults of `main`: the output root, the file pattern, the
      Python 2 interpreter and the collect step's folder under the run. */
  const DefaultOutRoot := "out/jobs"
  const DefaultJobPattern := "*.tif;*.tiff"
  const DefaultPython2 := "C:\\Python27\\python.exe"
  const CollectDirName := "collect"

  /** The steps `main` runs once the input root and the output folder are
      known: the modes (job lists first, then the profile's), the file
      pattern and the Python 2 interpreter, each with its default. */
  function StepsOf(cfg: Cfg, job: Job, collect: Option<CollectStep>, root: string, outDir: string, env: Option<string>)
    : (r: Result<Outcome>)
    ensures var choice := ResolveModes(cfg, OrEmpty(job.profile), OrEmpty(job.processingMode), OrEmpty(job.csvMode));
      (r.Ok? <==> choice.Ok?)
      && (r.Err? ==> r.error == choice.error)
      && (r.Ok? ==>
        r.value.Steps? && r.value.collect == collect && r.value.inputRoot == root && r.value.outDir == outDir
        && r.value.profile == OrEmpty(job.profile)
        && r.value.modes.processingMode == choice.value.processingMode
        && r.value.modes.csvMode == choice.value.csvMode
        && r.value.modes.plottingModes == (if job.plottingModes.Some? then job.plottingModes.value else choice.value.plottingModes)
        && r.value.modes.aggregateModes == (if job.aggregateModes.Some? then job.aggregateModes.value else choice.value.aggregateModes))
    ensures r.Ok? ==>
      (Truthy(job.pattern) ==> r.value.pattern == job.pattern.value)
      && (!Truthy(job.pattern) ==> r.value.pattern == DefaultJobPattern)
      && (Truthy(job.py2Exe) ==> r.value.py2Exe == job.py2Exe.value)
      && (!Truthy(job.py2Exe) && Truthy(env) ==> r.value.py2Exe == env.value)
      && (!Truthy(job.py2Exe) && !Truthy(env) ==> r.value.py2Exe == DefaultPython2)
  {
    var profile := OrEmpty(job.profile);
    var choice := ResolveModes(cfg, profile, OrEmpty(job.processingMode), OrEmpty(job.csvMode));
    if choice.Err? then Err(choice.error)
    else
      var plotting := if job.plottingModes.Some? then job.plottingModes.value else choice.value.plottingModes;
      var aggregate := if job.aggregateModes.Some? then job.aggregateModes.value else choice.value.aggregateModes;
      var pattern := if Truthy(job.pattern) then job.pattern.value else DefaultJobPattern;
      var py2Exe := if Truthy(job.py2Exe) then job.py2Exe.value else if Truthy(env) then env.value else DefaultPython2;
      Ok(Steps(collect, root, outDir, profile,
               ModeChoice(choice.value.processingMode, choice.value.csvMode, plotting, aggregate),
               pattern, py2Exe))
  }

  /** `main` up to the first subprocess. `stamp` is the clock's
      `%Y%m%d_%H%M%S`, `env` the `PYTHON2_EXE` variable and `copiedRoot`
      the resolved `copied_root` that a collect run records. */
  function Plan(cfg: Cfg, a: RunArgs, stamp: string, env: Option<string>, copiedRoot: string): (r: Result<Outcome>)
    ensures a.job !in cfg.jobs ==> r == Err(ValueError(UnknownJobStart + a.job + UnknownJobEnd))
    ensures a.job in cfg.jobs && Strip(OrEmpty(Overridden(JobOrEmpty(cfg, a.job), a).inputRoot)) == "" ==>
      r == Err(ValueError(JobsPrefix + a.job + InputRootRequired))
    ensures r.Ok? && r.value.Steps? ==>
      var job := Overridden(JobOrEmpty(cfg, a.job), a);
      var choice := ResolveModes(cfg, OrEmpty(job.profile), OrEmpty(job.processingMode), OrEmpty(job.csvMode));
      choice.Ok?
      && r.value.modes.processingMode == choice.value.processingMode
      && r.value.modes.csvMode == choice.value.csvMode
      && r.value.modes.plottingModes == (if job.plottingModes.Some? then job.plottingModes.value else choice.value.plottingModes)
      && r.value.modes.aggregateModes == (if job.aggregateModes.Some? then job.aggregateModes.value else choice.value.aggregateModes)
    ensures r.Ok? && r.value.Steps? && r.value.collect.None? ==>
      r.value.inputRoot == Strip(OrEmpty(Overridden(JobOrEmpty(cfg, a.job), a).inputRoot)) && r.value.inputRoot != ""
    ensures r.Ok? && r.value.Steps? && r.value.collect.Some? ==> r.value.inputRoot == copiedRoot
    ensures r.Ok? && r.value.StopAfterCollect? ==> a.dryRun
    ensures a.job in cfg.jobs && Strip(OrEmpty(Overridden(JobOrEmpty(cfg, a.job), a).inputRoot)) != "" ==>
      var job := Overridden(JobOrEmpty(cfg, a.job), a);
      var outDir := JoinPath(Strip(if Truthy(job.outputRoot) then job.outputRoot.value else DefaultOutRoot),
                             RunName(if Truthy(job.runNameTemplate) then job.runNameTemplate.value else DefaultRunNameTemplate,
                                     a.job, stamp));
      var collect := CollectOf(job, a.job, outDir);
      (collect.Err? ==> r == Err(collect.error))
      && (collect.Ok? && collect.value.Some? && a.dryRun ==> r == Ok(StopAfterCollect(collect.value.value)))
      && (r.Ok? && r.value.Steps? ==> collect.Ok? && r.value.outDir == outDir && r.value.collect == collect.value)
      && (collect.Ok? && !(collect.value.Some? && a.dryRun) ==>
            r == StepsOf(cfg, job, collect.value,
                         if collect.value.Some? then copiedRoot else Strip(OrEmpty(job.inputRoot)), outDir, env))
  {
    if a.job !in cfg.jobs then Err(ValueError(UnknownJobStart + a.job + UnknownJobEnd))
    else
      var job := Overridden(JobOrEmpty(cfg, a.job), a);
      var inputRoot := Strip(OrEmpty(job.inputRoot));
      if inputRoot == "" then Err(ValueError(JobsPrefix + a.job + InputRootRequired))
      else
        var outRoot := Strip(if Truthy(job.outputRoot) then job.outputRoot.value else DefaultOutRoot);
        var tpl := if Truthy(job.runNameTemplate) then job.runNameTemplate.value else DefaultRunNameTemplate;
        var outDir := JoinPath(outRoot, RunName(tpl, a.job, stamp));
        var collect := CollectOf(job, a.job, outDir);
        if collect.Err? then Err(collect.error)
        else if collect.value.Some? && a.dryRun then Ok(StopAfterCollect(collect.value.value))
        else StepsOf(cfg, job, collect.value, if collect.value.Some? then copiedRoot else inputRoot, outDir, env)
  }
}
