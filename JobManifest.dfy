/** The job manifest handed to the pygwy runner: mode resolution with the
    extra check that the modes exist in the configuration, the `;`-separated
    file patterns, and the manifest record itself. */
module JobManifest {
  import opened Common
  import opened Config
  import opened Ordering
  import opened Strings
  import Cli

  datatype ModeSel = ModeSel(processingMode: string, csvMode: string)

  /** The end of the message for a processing mode missing from `modes`. */
  const ModeNotFound := "' not found in config.modes."

  /** The end of the message for a CSV mode missing from `csv_modes`. */
  const CsvModeNotFound := "' not found in config.csv_modes."

  /** `resolve_modes`: the command line's resolution (unknown profile,
      explicit modes first, both modes required), then the processing mode
      must be a key of `modes` and the CSV mode a key of `csv_modes`. */
  function ResolveModes(cfg: Cfg, profile: Option<string>, processingMode: Option<string>, csvMode: Option<string>)
    : (r: Result<ModeSel>)
    ensures r.Ok? <==>
      Cli.ResolveModes(cfg, profile, processingMode, csvMode).Ok?
      && cfg.modes.Some? && Cli.ResolveModes(cfg, profile, processingMode, csvMode).value.0 in cfg.modes.value
      && cfg.csvModes.Some? && Cli.ResolveModes(cfg, profile, processingMode, csvMode).value.1 in cfg.csvModes.value
    ensures r.Ok? ==>
      Cli.ResolveModes(cfg, profile, processingMode, csvMode) == Ok((r.value.processingMode, r.value.csvMode))
    ensures Cli.ResolveModes(cfg, profile, processingMode, csvMode).Err? ==>
      r == Err(Cli.ResolveModes(cfg, profile, processingMode, csvMode).error)
    ensures r.Ok? ==> r.value.processingMode in Modes(cfg) && r.value.csvMode in CsvModes(cfg)
  {
    var chosen := Cli.ResolveModes(cfg, profile, processingMode, csvMode);
    if chosen.Err? then Err(chosen.error)
    else
      var (pm, cm) := chosen.value;
      if cfg.modes.None? || pm !in cfg.modes.value then
        Err(ValueError("processing_mode '" + pm + ModeNotFound))
      else if cfg.csvModes.None? || cm !in cfg.csvModes.value then
        Err(ValueError("csv_mode '" + cm + CsvModeNotFound))
      else Ok(ModeSel(pm, cm))
  }

  // ----- collect_files -----

  /** The default of `--pattern`. */
  const DefaultPattern := "*.tif;*.tiff"

  /** `[pat.strip() for pat in pattern.split(";") if pat.strip()]` */
  function Patterns(pattern: string): (ps: seq<string>)
    ensures forall p :: p in ps ==> CleanItem(p, ";")
    ensures forall p :: p in ps <==>
      exists i :: 0 <= i < |SplitOn(pattern, ";")| && p == Strip(SplitOn(pattern, ";")[i]) && p != ""
  {
    SplitCleanItems(pattern, ";");
    SplitCleanContent(pattern, ";", 0);
    SplitClean(pattern, ";")
  }

  predicate IsRecursivePattern(p: string) {
    StartsWith(p, "**/")
  }

  // `p[3:] if p.startswith("**/") else p`
  function BasePattern(p: string): (b: string)
    ensures IsRecursivePattern(p) ==> p == "**/" + b
    ensures !IsRecursivePattern(p) ==> b == p
  {
    if IsRecursivePattern(p) then p[3..] else p
  }

  // The patterns with a leading `**/` stripped, in order.
  function BasePatterns(ps: seq<string>): (bs: seq<string>)
    ensures |bs| == |ps| && forall i :: 0 <= i < |ps| ==> bs[i] == BasePattern(ps[i])
    decreases |ps|
  {
    if ps == [] then [] else BasePatterns(ps[..|ps| - 1]) + [BasePattern(ps[|ps| - 1])]
  }

  // `any(p.startswith("**/") for p in patterns)`
  predicate AnyRecursive(ps: seq<string>) {
    exists i :: 0 <= i < |ps| && IsRecursivePattern(ps[i])
  }

  /** The files listed by the searches, concatenated in pattern order. */
  function Found(bases: seq<string>, search: string -> seq<string>): (fs: seq<string>)
    ensures forall f :: f in fs <==> exists i :: 0 <= i < |bases| && f in search(bases[i])
    decreases |bases|
  {
    if bases == [] then []
    else
      var init := bases[..|bases| - 1];
      var fs := Found(init, search) + search(bases[|bases| - 1]);
      assert forall i :: 0 <= i < |init| ==> init[i] == bases[i];
      fs
  }

  /** `rglob` when any pattern asks for recursion, `glob` otherwise: one
      choice for all patterns. */
  function Search(ps: seq<string>, glob: string -> seq<string>, rglob: string -> seq<string>): string -> seq<string> {
    if AnyRecursive(ps) then rglob else glob
  }

  /** The `files` of `collect_files`: the matches of every base pattern as a
      sorted list. `glob(p)` and `rglob(p)` stand for the resolved regular
      files matching `p` under the input root. */
  function ListedFiles(pattern: string, glob: string -> seq<string>, rglob: string -> seq<string>): (files: seq<string>)
    ensures StrictlySorted(files, StrLt)
  {
    StrLtIsStrictTotalOrder();
    var ps := Patterns(pattern);
    SortedDistinct(Found(BasePatterns(ps), Search(ps, glob, rglob)), StrLt)
  }

  lemma FoundHasBaseMatch(f: string, ps: seq<string>, search: string -> seq<string>) returns (i: int)
    requires f in Found(BasePatterns(ps), search)
    ensures 0 <= i < |ps| && f in search(BasePattern(ps[i]))
  {
    var bs := BasePatterns(ps);
    i :| 0 <= i < |bs| && f in search(bs[i]);
  }

  lemma BaseMatchIsFound(f: string, ps: seq<string>, search: string -> seq<string>, i: int)
    requires 0 <= i < |ps| && f in search(BasePattern(ps[i]))
    ensures f in Found(BasePatterns(ps), search)
  {
    var bs := BasePatterns(ps);
    assert f in search(bs[i]);
  }

  /** The searches of the base patterns find a file exactly when one of
      them reports it. */
  lemma FoundMembers(ps: seq<string>, search: string -> seq<string>)
    ensures forall f :: f in Found(BasePatterns(ps), search) <==>
      exists i :: 0 <= i < |ps| && f in search(BasePattern(ps[i]))
  {
    forall f ensures f in Found(BasePatterns(ps), search) <==> exists i :: 0 <= i < |ps| && f in search(BasePattern(ps[i])) {
      if f in Found(BasePatterns(ps), search) {
        var i := FoundHasBaseMatch(f, ps, search);
      }
      if exists i :: 0 <= i < |ps| && f in search(BasePattern(ps[i])) {
        var i :| 0 <= i < |ps| && f in search(BasePattern(ps[i]));
        BaseMatchIsFound(f, ps, search, i);
      }
    }
  }

  /** A file is listed exactly when the search reports it for some base
      pattern. */
  lemma ListedFilesMembers(pattern: string, glob: string -> seq<string>, rglob: string -> seq<string>)
    ensures forall f :: f in ListedFiles(pattern, glob, rglob) <==>
      exists i :: 0 <= i < |Patterns(pattern)|
        && f in Search(Patterns(pattern), glob, rglob)(BasePattern(Patterns(pattern)[i]))
  {
    var ps := Patterns(pattern);
    var search := Search(ps, glob, rglob);
    StrLtIsStrictTotalOrder();
    assert ListedFiles(pattern, glob, rglob) == SortedDistinct(Found(BasePatterns(ps), search), StrLt);
    FoundMembers(ps, search);
  }

  /** The listed files are distinct. */
  lemma ListedFilesDistinct(pattern: string, glob: string -> seq<string>, rglob: string -> seq<string>)
    ensures NoDuplicates(ListedFiles(pattern, glob, rglob))
  {
    StrLtIsStrictTotalOrder();
    StrictlySortedNoDuplicates(ListedFiles(pattern, glob, rglob), StrLt);
  }

  /** A pattern string with no non-blank segment lists no file: the fallback
      to the whole pattern string is never searched. */
  lemma BlankPatternFindsNothing(pattern: string, glob: string -> seq<string>, rglob: string -> seq<string>)
    requires Patterns(pattern) == []
    ensures ListedFiles(pattern, glob, rglob) == []
  {
    ListedFilesMembers(pattern, glob, rglob);
    NonEmptyHasHead(ListedFiles(pattern, glob, rglob));
  }

  /** The listing depends only on which files the searches report, not on
      their order or repetition. */
  lemma ListingIgnoresSearchOrder(pattern: string, glob1: string -> seq<string>, rglob1: string -> seq<string>,
                                  glob2: string -> seq<string>, rglob2: string -> seq<string>)
    requires forall p :: (forall f :: f in glob1(p) <==> f in glob2(p))
    requires forall p :: (forall f :: f in rglob1(p) <==> f in rglob2(p))
    ensures ListedFiles(pattern, glob1, rglob1) == ListedFiles(pattern, glob2, rglob2)
  {
    ListedFilesMembers(pattern, glob1, rglob1);
    ListedFilesMembers(pattern, glob2, rglob2);
    StrLtIsStrictTotalOrder();
    SortedUnique(ListedFiles(pattern, glob1, rglob1), ListedFiles(pattern, glob2, rglob2), StrLt);
  }

  datatype FilesInfo = FilesInfo(files: seq<string>, inputRoot: string, pattern: string)

  /** The loop building `base_patterns`. */
  method StripRecursion(patterns: seq<string>) returns (basePatterns: seq<string>)
    ensures basePatterns == BasePatterns(patterns)
  {
    basePatterns := [];
    for i := 0 to |patterns|
      invariant basePatterns == BasePatterns(patterns[..i])
    {
      assert patterns[..i + 1][..i] == patterns[..i];
      basePatterns := basePatterns + [BasePattern(patterns[i])];
    }
    assert patterns[..|patterns|] == patterns;
  }

  /** The loop extending `files` with each pattern's matches. */
  method SearchAll(basePatterns: seq<string>, search: string -> seq<string>) returns (files: seq<string>)
    ensures files == Found(basePatterns, search)
  {
    files := [];
    for i := 0 to |basePatterns|
      invariant files == Found(basePatterns[..i], search)
    {
      assert basePatterns[..i + 1][..i] == basePatterns[..i];
      files := files + search(basePatterns[i]);
    }
    assert basePatterns[..|basePatterns|] == basePatterns;
  }

  /** `collect_files`; `resolvedRoot` is `str(input_root.resolve())`. */
  method CollectFiles(resolvedRoot: string, pattern: string, glob: string -> seq<string>, rglob: string -> seq<string>)
    returns (info: FilesInfo)
    ensures info == FilesInfo(ListedFiles(pattern, glob, rglob), resolvedRoot, pattern)
  {
    var patterns := Patterns(pattern);
    var recursive := exists i | 0 <= i < |patterns| :: StartsWith(patterns[i], "**/");
    assert recursive == AnyRecursive(patterns);
    var basePatterns := StripRecursion(patterns);
    if patterns == [] {
      // Dead: `patterns` is not read again.
      patterns := [pattern];
    }
    var files := SearchAll(basePatterns, if recursive then rglob else glob);
    assert files == Found(BasePatterns(Patterns(pattern)), Search(Patterns(pattern), glob, rglob));
    StrLtIsStrictTotalOrder();
    files := SortedDistinct(files, StrLt);
    return FilesInfo(files, resolvedRoot, pattern);
  }

  // ----- build_manifest -----

  /** The command-line options the manifest reads. */
  datatype ManifestArgs = ManifestArgs(
    inputRoot: string,
    outputDir: string,
    profile: Option<string>,
    processingMode: Option<string>,
    csvMode: Option<string>,
    outputCsv: Option<string>,
    pattern: string)

  datatype Manifest = Manifest(
    manifestVersion: string,
    processingMode: string,
    csvMode: string,
    inputRoot: string,
    pattern: string,
    files: seq<string>,
    outputDir: string,
    outputCsv: string,
    grid: Json,
    channelDefaults: Json,
    modeDefinition: Json,
    csvModeDefinition: Option<CsvDef>,
    unitConversions: Json)

  /** `cfg.get(key, {})` for an optional section. */
  function SectionOrEmpty(section: Option<Json>): Json {
    if section.Some? then section.value else JObj(map[])
  }

  /** `build_manifest`. `resolve` stands for `Path(..).resolve()` on the
      option paths; the listing is the one `CollectFiles` computes. */
  function BuildManifest(cfg: Cfg, args: ManifestArgs, resolve: string -> string,
                         glob: string -> seq<string>, rglob: string -> seq<string>): (r: Result<Manifest>)
    ensures var sel := ResolveModes(cfg, args.profile, args.processingMode, args.csvMode);
      (r.Err? <==> sel.Err?) && (sel.Err? ==> r.error == sel.error)
      && (r.Ok? ==>
        r.value.manifestVersion == "1.0"
        && r.value.processingMode == sel.value.processingMode
        && r.value.csvMode == sel.value.csvMode
        && r.value.modeDefinition == Modes(cfg)[sel.value.processingMode]
        && r.value.csvModeDefinition == CsvModes(cfg)[sel.value.csvMode])
    ensures r.Ok? ==> r.value.files == ListedFiles(args.pattern, glob, rglob) && r.value.pattern == args.pattern
    ensures r.Ok? ==> r.value.outputDir == resolve(args.outputDir)
    ensures r.Ok? && Truthy(args.outputCsv) ==> r.value.outputCsv == args.outputCsv.value
    ensures r.Ok? && !Truthy(args.outputCsv) ==> r.value.outputCsv == JoinPath(resolve(args.outputDir), "summary.csv")
    ensures r.Ok? ==> r.value.inputRoot == resolve(args.inputRoot)
    ensures r.Ok? ==>
      && (cfg.grid.Some? ==> r.value.grid == cfg.grid.value)
      && (cfg.grid.None? ==> r.value.grid == JObj(map[]))
      && (cfg.channelDefaults.Some? ==> r.value.channelDefaults == cfg.channelDefaults.value)
      && (cfg.channelDefaults.None? ==> r.value.channelDefaults == JObj(map[]))
      && (cfg.unitConversions.Some? ==> r.value.unitConversions == cfg.unitConversions.value)
      && (cfg.unitConversions.None? ==> r.value.unitConversions == JObj(map[]))
  {
    var sel := ResolveModes(cfg, args.profile, args.processingMode, args.csvMode);
    if sel.Err? then Err(sel.error)
    else
      var outputDir := resolve(args.outputDir);
      var outputCsv := if Truthy(args.outputCsv) then args.outputCsv.value else JoinPath(outputDir, "summary.csv");
      Ok(Manifest(
        "1.0",
        sel.value.processingMode,
        sel.value.csvMode,
        resolve(args.inputRoot),
        args.pattern,
        ListedFiles(args.pattern, glob, rglob),
        outputDir,
        outputCsv,
        SectionOrEmpty(cfg.grid),
        SectionOrEmpty(cfg.channelDefaults),
        Modes(cfg)[sel.value.processingMode],
        CsvModes(cfg)[sel.value.csvMode],
        SectionOrEmpty(cfg.unitConversions)))
  }
}
