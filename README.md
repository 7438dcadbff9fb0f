# AFM data processing: configuration and record layer

This project models the configuration and record layer of the AFM (atomic force microscopy)
data-processing pipeline in Dafny. The modelled parts are:

- mode resolution from profiles (`processing_mode`, `csv_mode`, plotting and aggregation modes)
  in the CLI, the job runner, the config-suite runner and the manifest builder;
- job manifests: pattern splitting, recursive `**/` patterns, sorted de-duplicated file lists;
- the job runner's override, run-name and step-planning logic;
- the config-suite runner's config expansion, first-seen de-duplication and per-config profiles;
- the summary-CSV writer: column policies (`error`, `skip_row`, `warn_null`), defaults,
  typed result objects read back from a CSV row;
- the method comparison: row loading and filtering, method discovery, the index grid,
  the merged key set, wide and long comparison rows with deltas and ratios;
- the file collector: text normalisation, tokenising, keyword scoring, include and exclude
  decisions, metadata extraction, template substitution, name shortening, the destination of each copied file and the
  path-length rule;
- the environment checker: version normalisation and comparison, the human report and the
  exit code.

Modules follow the programme's files:

| module | source |
|---|---|
| `Common` | records, results and errors shared by every script; `MapOfEntries` builds a dict whose later keys win |
| `Ordering` | strict total orders, sorted de-duplication (`sorted(set(...))`) and first-seen de-duplication |
| `Strings` | `strip`, `split`/`join`, `replace`, `ljust`, comma/semicolon lists, path joining and ordering |
| `Config` | the parsed YAML configuration as typed records |
| `Cli` | `src/afm_pipeline/cli.py` |
| `JobManifest` | `scripts/make_job_manifest.py` |
| `RunJob` | `scripts/run_job.py` |
| `ConfigSuite` | `scripts/run_config_suite.py` |
| `Summarize` | `src/afm_pipeline/summarize.py` |
| `CompareMethods` | `scripts/compare_methods.py` |
| `CollectFiles` | `scripts/collect_files.py` |
| `CheckEnv` | `scripts/check_env.py` |

Pure computations are functions. The source's loops are methods with `while` or `for` loops,
and each is proved equal to the function that specifies it: the CSV row builder, the
result-object builder, the folder summary, the grid accumulation and fill, the comparison row
builder, the keyword scan, metadata extraction, template substitution, config expansion and
de-duplication, the override block, and the version normaliser and report.

Library and environment services are passed in as function parameters:

- glob and rglob results and directory tests;
- path resolution, the clock's timestamp and environment variables;
- Python's float and int parsing;
- `difflib.SequenceMatcher.ratio`, the MD5 hex digest and a regex's named groups;
- the per-file processor and the CSV loader.

One observation sits in the model, not in Findings: `ConfigSuite.ManifestRejectsWhatSuiteAccepts`.
The suite runner accepts an unknown profile, because its `resolve_modes` treats it as no
profile. It then forwards `--profile` to the manifest builder, which rejects that same profile.

## Model

| member | source | states |
|---|---|---|
| Common.MapOfEntriesStep | scripts/compare_methods.py:308-351 | adding one more key/value to a dict under construction is a point update of the dict built so far |
| Common.MapOfEntriesLastWins | scripts/compare_methods.py:292-293 | in a dict built from a sequence of pairs, a key holds the value of its last occurrence |
| Common.MapOfEntriesKeys | scripts/compare_methods.py:292-293 | the dict's keys are exactly the keys that occur in the pair sequence |
| Common.MapOfEntries | scripts/compare_methods.py:292-293 | `dict(pairs)`: later keys win (definition only; stated by `MapOfEntriesLastWins` and `MapOfEntriesKeys`) |
| Common.DictGet | scripts/collect_files.py:355-364 | `d.get(k)` on a dict held as its items in insertion order: `None` exactly when no item has key `k`, otherwise the value of an item with that key |
| Common.DictPut | scripts/collect_files.py:364 | `d[k] = v` keeps every existing key in its place and appends `k` only when it is new; the keys stay distinct |
| Common.DictPutGet | scripts/collect_files.py:364 | after `d[k] = v`, `k` reads `v` and every other key reads what it read before |
| Common.DictUpdate | scripts/collect_files.py:364 | `d.update(pairs)` keeps every existing key in its place and keeps the keys distinct |
| Common.DictUpdateGet | scripts/collect_files.py:146-153 | after `d.update(pairs)` a key of the pairs reads its last value among them, any other key its old value |
| Common.DictGetSnoc | scripts/collect_files.py:364 | one more item at the end changes only the lookup of a key that was absent |
| Common.DictUpdateWithDict | scripts/collect_files.py:364 | `ctx.update(meta)` with a dict: a key of `meta` reads `meta`'s value, any other key its old value |
| Ordering.SeqLtIrreflexive | scripts/compare_methods.py:285 | lexicographic order over a strict total order on elements is irreflexive |
| Ordering.SeqLtTransitive | scripts/compare_methods.py:285 | lexicographic order is transitive |
| Ordering.SeqLtTotal | scripts/compare_methods.py:285 | any two distinct sequences are ordered one way or the other |
| Ordering.SeqLtIsStrictTotalOrder | scripts/compare_methods.py:285 | lexicographic order on sequences is a strict total order, as Python's string and tuple comparison is |
| Ordering.SeqLtAfterCommonPrefix | scripts/check_env.py:89 | after a common prefix, lexicographic order is decided by the remainders |
| Ordering.InsertSorted | scripts/make_job_manifest.py:67 | inserting into a strictly sorted list keeps it strictly sorted and adds exactly that element |
| Ordering.SortedDistinct | scripts/make_job_manifest.py:67 | `sorted(set(xs))` is strictly sorted and holds exactly the elements of `xs` |
| Ordering.HeadIsLeast | scripts/make_job_manifest.py:67 | the head of a strictly sorted list is below every other member |
| Ordering.SortedUnique | scripts/make_job_manifest.py:67 | two strictly sorted lists with the same members are equal |
| Ordering.SortedDistinctOfSameElements | src/afm_pipeline/summarize.py:122 | `sorted(set(...))` depends only on the set of inputs, not on their order or repetition |
| Ordering.StrictlySortedNoDuplicates | scripts/make_job_manifest.py:67 | a strictly sorted list has no duplicates |
| Ordering.Dedup | scripts/run_config_suite.py:65-69 | first-seen de-duplication leaves no duplicates and keeps every member of the input |
| Ordering.FirstIndex | scripts/run_config_suite.py:113 | `list.index(x)` is the position of the first occurrence of `x` |
| Ordering.FirstIndexIsLeast | scripts/run_config_suite.py:113 | no occurrence of `x` comes before `list.index(x)` |
| Ordering.FirstIndexOfPrefix | scripts/run_config_suite.py:113 | `index` on a prefix that already holds `x` gives the same position as on the whole list |
| Ordering.DedupStep | scripts/run_config_suite.py:65-69 | one more input element extends the de-duplicated list by that element if it is new, and leaves it unchanged otherwise |
| Ordering.DedupKeepsFirstOccurrenceOrder | scripts/run_config_suite.py:65-69 | de-duplicated configs come out in the order of their first occurrence |
| Ordering.FirstIndexAtEnd | scripts/run_config_suite.py:65-69 | an element seen for the first time at the end of the list has its first index there |
| Strings.LStrip | scripts/compare_methods.py:93 | left strip returns a suffix of the text that does not start with whitespace |
| Strings.RStrip | scripts/compare_methods.py:93 | right strip returns a prefix of the text that does not end with whitespace |
| Strings.StripProperties | scripts/run_job.py:130 | `strip()` leaves no whitespace at either end and is idempotent |
| Strings.LowerAscii | scripts/collect_files.py:204 | lowering maps every character through the character map and keeps the length |
| Strings.LJust | scripts/check_env.py:377 | `ljust(width)` keeps the text and pads it with spaces to at least `width` |
| Strings.ContainsInPrefix | scripts/collect_files.py:100-101 | a substring of a prefix is a substring of the text |
| Strings.ContainsInSuffix | scripts/collect_files.py:100-101 | a substring of a suffix is a substring of the text |
| Strings.SplitOn | scripts/make_job_manifest.py:52 | `str.split(sep)` returns at least one piece |
| Strings.JoinConsHead | scripts/run_job.py:137 | prefixing the first piece prefixes the joined text |
| Strings.ReplaceIsJoinOfSplit | scripts/run_job.py:137 | `s.replace(pat, rep)` equals `rep.join(s.split(pat))` |
| Strings.ReplaceWithItself | scripts/run_job.py:137 | replacing a pattern by itself leaves the text unchanged |
| Strings.SplitJoinRoundTrip | scripts/make_job_manifest.py:52 | joining the pieces of `split(sep)` with `sep` gives back the original text |
| Strings.SplitOnHeadIsPrefix | scripts/make_job_manifest.py:52 | the first piece of a split is a prefix of the text |
| Strings.StartsWithPrefix | scripts/make_job_manifest.py:54 | the prefix relation is transitive |
| Strings.SplitOnPiecesAvoidSep | scripts/make_job_manifest.py:52 | no piece of `split(sep)` contains `sep` |
| Strings.ReplaceAbsentPattern | scripts/collect_files.py:161 | replacing a placeholder that does not occur leaves the text unchanged |
| Strings.ReplaceSkipsPrefix | scripts/run_job.py:137 | a prefix without the pattern's first character passes through `replace` unchanged |
| Strings.ReplaceMismatch | scripts/run_job.py:137 | where the pattern does not start, `replace` keeps the first character |
| Strings.ReplaceMatch | scripts/run_job.py:137 | where the pattern starts, `replace` emits the replacement and continues after the match |
| Strings.ReplaceWithoutFirstChar | scripts/run_job.py:137 | text without the pattern's first character is unchanged by `replace` |
| Strings.ReplaceShort | scripts/run_job.py:137 | text shorter than the pattern is unchanged by `replace` |
| Strings.ReplaceSingle | scripts/run_job.py:137 | one occurrence after a pattern-free prefix and before a short tail is replaced exactly once |
| Strings.StripKeepsAbsence | scripts/collect_files.py:290 | stripping cannot introduce a separator |
| Strings.StripGivesCleanItem | scripts/collect_files.py:290 | a stripped non-empty piece without the separator is a clean list item |
| Strings.StripNonBlankProperties | scripts/run_job.py:117-119 | keeping the stripped non-blank pieces yields only clean items |
| Strings.SplitCleanItems | scripts/collect_files.py:284 | `[p.strip() for p in s.split(sep) if p.strip()]` yields items that are non-empty, unpadded and free of the separator |
| Strings.JoinPath | scripts/make_job_manifest.py:77 | `Path(dir) / name` is the name alone when the name is absolute or the directory is empty; otherwise the directory followed by the name when the directory ends in a slash, and the directory, a slash and the name when it does not |
| Strings.Strip | scripts/run_job.py:130 | `str.strip()`: whitespace removed at both ends; its properties are `StripProperties` (definition only, no contract of its own) |
| Strings.Join | scripts/run_job.py:137 | `sep.join(parts)`; its properties are `SplitJoinRoundTrip` and `JoinConsHead` (definition only) |
| Strings.Replace | scripts/run_job.py:137 | `s.replace(pat, rep)`, one left-to-right pass; its properties are `ReplaceIsJoinOfSplit`, `ReplaceAbsentPattern` and the `Replace*` lemmas (definition only) |
| Strings.SplitClean | scripts/collect_files.py:284 | `[p.strip() for p in s.split(sep) if p.strip()]`; its content and order are stated by `SplitCleanContent` and its items by `SplitCleanItems` (definition only) |
| Strings.StripNonBlankAppend | scripts/collect_files.py:284 | the comprehension runs over the pieces in order: two lists of pieces give the first list's items followed by the second's |
| Strings.StripNonBlankMembers | scripts/collect_files.py:284 | an item is exactly a non-blank stripped piece |
| Strings.StripNonBlankSingle | scripts/collect_files.py:284 | one piece contributes its stripped text when that is non-blank, and nothing otherwise |
| Strings.SplitCleanContent | scripts/collect_files.py:284 | the items are exactly the non-blank stripped pieces of `s.split(sep)`, and splitting the pieces anywhere splits the items at the same place |
| Strings.ConcatCons | scripts/collect_files.py:73-76 | concatenation of a cons is the head followed by the rest |
| Strings.ContainsFirstChar | scripts/collect_files.py:161 | text that contains a pattern contains the pattern's first character |
| Strings.WithoutFirstCharNoContains | scripts/collect_files.py:161 | text without a `{` holds no `{key}` placeholder |
| Strings.LStripChars | scripts/collect_files.py:369 | `s.lstrip(chars)` is the longest suffix not starting with one of `chars`, everything removed being in `chars` |
| Strings.RStripChars | scripts/collect_files.py:369 | `s.rstrip(chars)` is the longest prefix not ending with one of `chars`, everything removed being in `chars` |
| Strings.StripChars | scripts/collect_files.py:369 | `s.strip(chars)` is a slice of `s` that neither starts nor ends with one of `chars`, and everything cut off at either end is in `chars` |
| Strings.StripCharsSlice | scripts/collect_files.py:369 | stripping the right after the left leaves one contiguous slice of the text |
| Strings.LastDot | scripts/collect_files.py:359-360 | the position of the last `.`, or -1 when there is none |
| Strings.Suffix | scripts/collect_files.py:360 | `Path(name).suffix` is empty or a `.`-suffix of the name that is shorter than the name |
| Strings.Stem | scripts/collect_files.py:359 | `Path(name).stem` followed by the suffix gives back the name |
| Strings.SuffixOfAppended | scripts/collect_files.py:373-374 | appending a suffix to a non-empty name makes it the name's suffix |
| Strings.StrLtIsStrictTotalOrder | scripts/compare_methods.py:290 | string order is a strict total order |
| Strings.PathLtIsStrictTotalOrder | src/afm_pipeline/summarize.py:122 | component-wise path order is a strict total order |
| Config.ProfileOrEmpty | src/afm_pipeline/cli.py:21 | a profile defined as null reads as the empty profile, and otherwise as itself (definition only; its effect is stated by the null-profile clauses of `Cli.ResolveModes` and `RunJob.ResolveModes`) |
| Cli.ProfileModes | src/afm_pipeline/cli.py:14-23 | an unknown profile is rejected; explicit arguments win over the profile's modes; without a profile the arguments are taken as given |
| Cli.ResolveModes | src/afm_pipeline/cli.py:12-30 | an unknown profile raises "Unknown profile"; otherwise, with each mode the argument when given and else the profile's, both modes present give exactly that pair, a missing processing mode raises "processing_mode is required" and a missing CSV mode "csv_mode is required"; success yields non-empty modes |
| Cli.ResolvePlottingMode | src/afm_pipeline/cli.py:70-81 | an explicit plotting mode wins; otherwise the first of the profile's plotting modes, and an error if there is no known profile or its list is empty |
| Cli.Dispatch | src/afm_pipeline/cli.py:93-100 | "summarize" and "plot" dispatch to their commands and any other command is rejected |
| JobManifest.ResolveModes | scripts/make_job_manifest.py:25-48 | succeeds exactly when the CLI resolution succeeds and both modes are defined in the config, with the same modes; CLI errors pass through unchanged |
| JobManifest.Patterns | scripts/make_job_manifest.py:52 | every split pattern is a clean `;`-list item, and the patterns are exactly the non-blank stripped pieces of `pattern.split(";")` |
| JobManifest.BasePattern | scripts/make_job_manifest.py:58 | a `**/` pattern loses exactly that prefix and any other pattern is kept |
| JobManifest.BasePatterns | scripts/make_job_manifest.py:56-58 | the base patterns correspond one to one, in order, with the patterns |
| JobManifest.AnyRecursive | scripts/make_job_manifest.py:53-55 | some pattern starts with `**/`, which turns on recursive search for every pattern (definition only) |
| JobManifest.Search | scripts/make_job_manifest.py:62-66 | every base pattern goes to `rglob` when any pattern is recursive, and to `glob` otherwise (definition only; used by `ListedFiles`) |
| JobManifest.Found | scripts/make_job_manifest.py:61-66 | a file is found exactly when some base pattern's search returns it |
| JobManifest.ListedFiles | scripts/make_job_manifest.py:51-67 | the manifest's file list is strictly sorted |
| JobManifest.FoundHasBaseMatch | scripts/make_job_manifest.py:61-66 | every found file names a pattern whose base search returned it |
| JobManifest.BaseMatchIsFound | scripts/make_job_manifest.py:61-66 | every file returned by a pattern's base search is found |
| JobManifest.FoundMembers | scripts/make_job_manifest.py:56-66 | both directions: found files are exactly the union of the base searches |
| JobManifest.ListedFilesMembers | scripts/make_job_manifest.py:51-67 | the listed files are exactly the files matched by some pattern |
| JobManifest.ListedFilesDistinct | scripts/make_job_manifest.py:67 | the file list holds no duplicates |
| JobManifest.BlankPatternFindsNothing | scripts/make_job_manifest.py:59-60 | a blank pattern lists no files; the fallback to the raw pattern is never searched |
| JobManifest.ListingIgnoresSearchOrder | scripts/make_job_manifest.py:61-67 | the listing depends only on which files the searches return, not on their order |
| JobManifest.StripRecursion | scripts/make_job_manifest.py:56-58 | the loop computes the base patterns |
| JobManifest.SearchAll | scripts/make_job_manifest.py:61-66 | the search loop collects exactly the found files |
| JobManifest.CollectFiles | scripts/make_job_manifest.py:51-68 | returns the sorted listing, the resolved root and the raw pattern |
| JobManifest.BuildManifest | scripts/make_job_manifest.py:71-95 | fails exactly when mode resolution fails, with its error; otherwise version "1.0", the resolved input root, the resolved modes and their definitions, the listing, the grid, channel defaults and unit conversions from the config (an empty object when unset), the resolved output directory, and `summary.csv` under it unless an output CSV is given |
| RunJob.ResolveModes | scripts/run_job.py:37-56 | an unknown profile is an error; without a profile it succeeds exactly when both modes are given; with a known profile exactly when each mode is given or set by the profile, and then the modes are the arguments, else the profile's, with the profile's plotting and aggregate lists; missing modes raise "processing_mode and csv_mode are required" |
| RunJob.AgreesWithCli | scripts/run_job.py:37-56 | the job runner resolves the same processing and CSV modes as the CLI, and succeeds in the same cases |
| RunJob.ModeList | scripts/run_job.py:117-119 | a comma list from the command line gives only clean items, and exactly the non-blank stripped pieces of `s.split(",")` |
| RunJob.CollectOverridden | scripts/run_job.py:120-128 | `--collect-job` and `--collect-out-root` replace their settings and `--no-collect` disables the step; nothing else changes |
| RunJob.Overridden | scripts/run_job.py:102-128 | each non-empty command-line option replaces its job setting; the collect block changes only when a collect option is given; the Python 2 path is untouched |
| RunJob.OverridesIdempotent | scripts/run_job.py:102-128 | applying the same overrides twice gives the same job as applying them once |
| RunJob.OverrideSettings | scripts/run_job.py:102-115 | the scalar overrides change exactly the seven scalar settings as specified |
| RunJob.OverrideLists | scripts/run_job.py:116-119 | the list overrides change exactly the plotting and aggregate lists |
| RunJob.OverrideCollect | scripts/run_job.py:120-128 | the collect override changes exactly the collect block |
| RunJob.ApplyOverrides | scripts/run_job.py:102-128 | the override block produces exactly the overridden job |
| RunJob.RunNameWithoutPlaceholders | scripts/run_job.py:137 | a template without braces is used as the run name verbatim |
| RunJob.AbsoluteRunNameIsOutDir | scripts/run_job.py:137-138 | an absolute run name without braces (`--run-name /data/r1`) is the output directory itself, whatever the output root |
| RunJob.TimestampHoldsNoJob | scripts/run_job.py:137 | the `{timestamp}` placeholder survives replacing `{job}` |
| RunJob.TimestampSurvivesJobReplace | scripts/run_job.py:137 | the `_{timestamp}` tail survives replacing `{job}` |
| RunJob.JobPlaceholderReplaced | scripts/run_job.py:135-137 | in the default template, replacing `{job}` yields the job name followed by `_{timestamp}` |
| RunJob.TimestampPlaceholderReplaced | scripts/run_job.py:137 | replacing `{timestamp}` after a brace-free job name yields `job_stamp` |
| RunJob.DefaultRunName | scripts/run_job.py:135-137 | for a brace-free job name the default run name is `<job>_<timestamp>` |
| RunJob.RunName | scripts/run_job.py:135-137 | `{job}` replaced first, then `{timestamp}`; its properties are `RunNameWithoutPlaceholders` and `DefaultRunName` (definition only) |
| RunJob.CollectOf | scripts/run_job.py:142-147 | a disabled collect block means no collect step; an enabled one without a job is an error; an enabled one with a job plans a step with that job and with the configured out root, else `<out_dir>/collect` |
| RunJob.StepsOf | scripts/run_job.py:176-189 | fails exactly when mode resolution fails; otherwise job lists win over profile lists, the pattern defaults to `*.tif;*.tiff`, and the Python 2 path comes from the job, then `PYTHON2_EXE`, then the built-in default |
| RunJob.Plan | scripts/run_job.py:95-189 | an unknown job and a blank input root are errors; otherwise the output directory is `<output_root>/<run name>` and a collect error is the plan's error; a dry-run collect stops after collecting, and every planned run carries that directory and collect step; processing after a collect reads the copied root, otherwise the stripped input root; when the collect step succeeds and is not a dry run, the plan is exactly `StepsOf` for the overridden job, so its profile, modes, pattern and Python 2 executable are those `StepsOf` states |
| ConfigSuite.SuiteProfile | scripts/run_config_suite.py:30-38 | an unknown or null profile reads as the empty profile (definition only; its effect is stated by `ConfigSuite.UnknownProfileActsAsNone`) |
| ConfigSuite.Chosen | scripts/run_config_suite.py:30-38 | explicit modes win over the profile's |
| ConfigSuite.ResolveModes | scripts/run_config_suite.py:30-49 | the only error is "processing_mode and csv_mode are required"; both modes given always succeeds; explicit modes win; resolved modes are non-empty |
| ConfigSuite.UnknownProfileActsAsNone | scripts/run_config_suite.py:30-49 | an unknown profile resolves exactly as no profile |
| ConfigSuite.AgreesWithRunJobOnProfile | scripts/run_config_suite.py:30-49 | for a known profile the suite resolves exactly as the job runner, up to the error message |
| ConfigSuite.AgreesWithRunJobWithoutProfile | scripts/run_config_suite.py:30-49 | without a profile the suite resolves exactly as the job runner |
| ConfigSuite.AgreesWithRunJob | scripts/run_config_suite.py:30-49 | for every profile the job runner accepts, the suite and the job runner agree |
| ConfigSuite.ManifestRejectsWhatSuiteAccepts | scripts/run_config_suite.py:176-177 | with an unknown profile the suite resolves modes, yet the manifest builder it calls raises "Unknown profile" |
| ConfigSuite.ArgPaths | scripts/run_config_suite.py:54-64 | a `--configs` argument fails exactly when it is neither a directory nor matches a glob, with "Config not found" |
| ConfigSuite.ExpandedFailsAtFirstMissing | scripts/run_config_suite.py:54-64 | expansion fails exactly when some argument is missing, and reports the first missing one |
| ConfigSuite.ExpandedStep | scripts/run_config_suite.py:54-64 | a successful expansion is the expansion of the earlier arguments followed by the last argument's paths |
| ConfigSuite.ExpandedSource | scripts/run_config_suite.py:54-64 | every expanded path comes from some argument |
| ConfigSuite.ExpandedKeeps | scripts/run_config_suite.py:54-64 | every argument's paths appear in the expansion |
| ConfigSuite.ExpandedMembers | scripts/run_config_suite.py:54-64 | both directions: the expanded paths are exactly the union of the arguments' paths |
| ConfigSuite.ExtendPaths | scripts/run_config_suite.py:54-64 | one loop step appends the argument's paths or propagates its error |
| ConfigSuite.DedupPaths | scripts/run_config_suite.py:65-69 | the `seen` loop computes the first-seen de-duplication |
| ConfigSuite.CollectConfigs | scripts/run_config_suite.py:52-69 | returns the first error, or the de-duplicated expansion |
| ConfigSuite.ExpandedPrefixFails | scripts/run_config_suite.py:54-64 | once an argument is missing, later arguments do not change the outcome |
| ConfigSuite.ProfilesFor | scripts/run_config_suite.py:103-109 | `--profiles` must match the config count, and then gives one profile per config in order; otherwise every config gets `--profile` |
| ConfigSuite.ProfileIsPositional | scripts/run_config_suite.py:113 | after de-duplication, `cfg_paths.index(p)` is the position of `p`, so config i gets profile i |
| ConfigSuite.ConfigModes | scripts/run_config_suite.py:114-118 | succeeds exactly when mode resolution does; command-line plotting and aggregate lists replace the profile's |
| Summarize.FirstMissing | src/afm_pipeline/summarize.py:70-80 | the first column with no value, before which every column has one |
| Summarize.CsvRow | src/afm_pipeline/summarize.py:57-88 | a KeyError exactly when the policy is "error" and a column is missing; no row exactly for "skip_row" with a missing column; otherwise one cell per column, holding the result's value, else the column default |
| Summarize.BuildCsvRow | src/afm_pipeline/summarize.py:57-88 | the column loop computes `CsvRow` |
| Summarize.DefaultBeatsPolicy | src/afm_pipeline/summarize.py:76-78 | a column with a non-empty default is never missing and its cell is the default |
| Summarize.NullDefaultWritesNone | src/afm_pipeline/summarize.py:71-78 | a `default: null` is kept by `get("default", "")` and is not `""`: absent keys whose default is null give a written row with `None` in those cells under every policy |
| Summarize.WarnNullWritesEmpty | src/afm_pipeline/summarize.py:84-86 | under "warn_null", a missing column yields a row with an empty cell |
| Summarize.CastValue | src/afm_pipeline/summarize.py:41-54 | `None` stays `None`; "int" and "float" parse or become `None`; any other type keeps the text |
| Summarize.ObjectOfKeys | src/afm_pipeline/summarize.py:32-37 | the result object's keys are exactly the schema's field names |
| Summarize.ObjectOfValues | src/afm_pipeline/summarize.py:32-37 | a field holds the value of its last definition in the schema |
| Summarize.ObjectOfFields | src/afm_pipeline/summarize.py:32-37 | keys and values of the result object together |
| Summarize.ObjectOf | src/afm_pipeline/summarize.py:32-37 | the typed result object; stated by `ObjectOfKeys`, `ObjectOfValues` and `ObjectOfFields` (definition only) |
| Summarize.ResultObject | src/afm_pipeline/summarize.py:24-38 | an unknown schema is a ValueError; otherwise the keys are exactly the schema's fields |
| Summarize.BuildResultObject | src/afm_pipeline/summarize.py:24-38 | the field loop computes `ResultObject` |
| Summarize.ZipDict | src/afm_pipeline/summarize.py:17-21 | a CSV record read by header has exactly the header's names as keys |
| Summarize.ZipDictAt | src/afm_pipeline/summarize.py:17-21 | a header name that is not repeated later maps to its own cell |
| Summarize.Header | src/afm_pipeline/summarize.py:129 | the header lists the column names in order |
| Summarize.RowRoundTrip | src/afm_pipeline/summarize.py:24-88 | round trip: a value written into a CSV row and read back through the result schema is recovered, given parsers that invert rendering |
| Summarize.RowOf | src/afm_pipeline/summarize.py:134-142 | a file contributes one row exactly when processing succeeds and the row is neither an error nor skipped |
| Summarize.RowsAppend | src/afm_pipeline/summarize.py:134-142 | the rows of two file lists are the rows of each, concatenated |
| Summarize.Rows | src/afm_pipeline/summarize.py:134-142 | the rows of a file list; stated by `RowOf` and `RowsAppend` (definition only) |
| Summarize.FailureDropsOnlyThatFile | src/afm_pipeline/summarize.py:134-142 | a file whose processing fails, or whose row errors or is skipped, removes only its own row |
| Summarize.TiffFiles | src/afm_pipeline/summarize.py:114-122 | the file list is path-sorted and holds exactly the `*.tif` and `*.tiff` matches |
| Summarize.SummarizeFolder | src/afm_pipeline/summarize.py:91-142 | an unknown CSV mode is a ValueError; otherwise the table is the header plus the rows of the sorted TIFF files |
| Summarize.SummaryIgnoresGlobOrder | src/afm_pipeline/summarize.py:114-122 | the file list depends only on which files the globs return |
| CompareMethods.Truncate | scripts/compare_methods.py:63-70 | short text is kept; longer text is cut to exactly `max_len`, keeping the head and the tail around "..." |
| CompareMethods.TruncateBalanced | scripts/compare_methods.py:67-70 | the kept tail is as long as the head or one character longer |
| CompareMethods.ToFloat | scripts/compare_methods.py:36-48 | a value exactly when the stripped cell parses to a finite float, and that value |
| CompareMethods.TruncateToInt | scripts/compare_methods.py:51-60 | `int(float)` truncates toward zero |
| CompareMethods.ToInt | scripts/compare_methods.py:51-60 | a value exactly when the stripped cell parses to a finite float |
| CompareMethods.ToIntTruncates | scripts/compare_methods.py:51-60 | the parsed integer is the float truncated toward zero |
| CompareMethods.RowIfNamed | scripts/compare_methods.py:93-95 | a record is kept exactly when its stripped `source_file` is non-empty |
| CompareMethods.LoadedRowsNonBlank | scripts/compare_methods.py:88-111 | at most one row per record, each with a non-empty source file and parsed from some record |
| CompareMethods.LoadRecord | scripts/compare_methods.py:93-109 | one loop step keeps or drops the record by its source file |
| CompareMethods.LoadNext | scripts/compare_methods.py:92-110 | one more record extends the loaded rows as `LoadedRows` specifies |
| CompareMethods.LoadSummaryRows | scripts/compare_methods.py:88-111 | the loader computes `LoadedRows` |
| CompareMethods.LoadedRowsSnoc | scripts/compare_methods.py:92-110 | the rows of n+1 records are those of n records plus the last record's row, if it has one |
| CompareMethods.LoadedRowsAppend | scripts/compare_methods.py:92-110 | loading is compositional over concatenated record lists |
| CompareMethods.ParseRow | scripts/compare_methods.py:93-110 | one CSV record as a `SummaryRow`: stripped text fields and parsed numbers (definition only) |
| CompareMethods.LoadedRows | scripts/compare_methods.py:88-111 | the rows `load_summary_csv` returns: one per record with a non-blank source file, in order; properties in `LoadedRowsNonBlank` and `LoadedRowsSnoc` (definition only) |
| CompareMethods.BlankSourceDropsOnlyThatRecord | scripts/compare_methods.py:93-95 | a blank source drops only its own record; any other record keeps its place |
| CompareMethods.Names | scripts/compare_methods.py:114-129 | the method names of discovered summaries, in order |
| CompareMethods.Discovered | scripts/compare_methods.py:114-129 | discovered method names are distinct |
| CompareMethods.DiscoverMethodSummaries | scripts/compare_methods.py:114-129 | the discovery loop computes `Discovered` |
| CompareMethods.DiscoveredStep | scripts/compare_methods.py:123-128 | a new path adds its method only when that method is not yet known, at the end; a known method is kept |
| CompareMethods.DiscoveredRecordsFirst | scripts/compare_methods.py:127-128 | every discovered method keeps the first path that names it |
| CompareMethods.DiscoveredHasAllNames | scripts/compare_methods.py:114-129 | every method that names some path is discovered |
| CompareMethods.ValidRows | scripts/compare_methods.py:142 | the valid rows are exactly the rows with both grid indices |
| CompareMethods.MaxRow | scripts/compare_methods.py:145 | the largest row index: an upper bound that some row attains |
| CompareMethods.MaxCol | scripts/compare_methods.py:146 | the largest column index: an upper bound that some row attains |
| CompareMethods.ValuesAt | scripts/compare_methods.py:150-156 | no more values accumulate at a point than there are rows |
| CompareMethods.AccOrder | scripts/compare_methods.py:150-156 | the accumulated points are distinct and are exactly the points that have a value |
| CompareMethods.Wrap | scripts/compare_methods.py:157-158 | a numpy index in range, including a negative one, wraps to a valid position |
| CompareMethods.NaNGrid | scripts/compare_methods.py:147 | an `nrows` by `ncols` grid of NaN |
| CompareMethods.Filled | scripts/compare_methods.py:157-158 | filling keeps the grid's shape |
| CompareMethods.GridOf | scripts/compare_methods.py:141-159 | a built grid has the shape it reports |
| CompareMethods.GridOfValid | scripts/compare_methods.py:143-159 | no valid rows gives the empty 0 by 0 grid; otherwise the grid has the shape it reports |
| CompareMethods.AccOrderSnoc | scripts/compare_methods.py:150-156 | a row appends its point when it has a value and the point is new |
| CompareMethods.ValuesAtSnoc | scripts/compare_methods.py:150-156 | a row appends its value to the list of its own point |
| CompareMethods.AccumulateRow | scripts/compare_methods.py:151-156 | one loop step updates the accumulator as specified |
| CompareMethods.Accumulate | scripts/compare_methods.py:150-156 | the accumulator maps each point with a value to that point's values, in row order |
| CompareMethods.FilledSnoc | scripts/compare_methods.py:157-158 | filling one more point is a point update of the grid |
| CompareMethods.FillGrid | scripts/compare_methods.py:157-158 | the fill loop succeeds exactly when every point is in range, and computes `Filled` |
| CompareMethods.BuildGrid | scripts/compare_methods.py:141-159 | `build_grid` computes `GridOf` |
| CompareMethods.BuildGridOfValid | scripts/compare_methods.py:143-159 | the grid built from the valid rows is `GridOfValid` |
| CompareMethods.ValuesAtNonEmpty | scripts/compare_methods.py:150-156 | a point has values exactly when some row gives it one |
| CompareMethods.FilledAt | scripts/compare_methods.py:157-158 | a cell holds the point's value when the point was filled, and NaN otherwise |
| CompareMethods.AccOrderInGrid | scripts/compare_methods.py:145-158 | with non-negative indices, every filled point lies inside the grid |
| CompareMethods.FilledMeans | scripts/compare_methods.py:147-158 | every cell holds the mean of its point's values, or NaN if it has none |
| CompareMethods.CellValue | scripts/compare_methods.py:147-158 | the mean of the values at a point, or NaN when it has none (definition only; stated by `FilledMeans`) |
| CompareMethods.Mean | scripts/compare_methods.py:158 | `np.mean` of a non-empty list of values (definition only; stated by `FilledMeans`) |
| CompareMethods.ValidNonNegative | scripts/compare_methods.py:142 | valid rows keep the non-negative indices of the input |
| CompareMethods.NonNegativeInBounds | scripts/compare_methods.py:145-158 | the grid is at least 1 by 1 and every point is in range |
| CompareMethods.GridOfInBounds | scripts/compare_methods.py:145-159 | in-range points give the filled grid of size max+1 by max+1 |
| CompareMethods.NoIndexedRowsEmptyGrid | scripts/compare_methods.py:143-144 | rows without indices give the empty grid |
| CompareMethods.NoIndexedRowsNoValid | scripts/compare_methods.py:142 | rows without indices leave no valid rows |
| CompareMethods.GridOfValidMeaning | scripts/compare_methods.py:143-159 | with non-negative indices, every cell is the mean at its point or NaN |
| CompareMethods.GridMeaning | scripts/compare_methods.py:141-159 | `build_grid` places at each cell the mean of the values at that point, or NaN |
| CompareMethods.ByKeyLastWins | scripts/compare_methods.py:292-293 | the row for a source file is the last one loaded for it |
| CompareMethods.ByKey | scripts/compare_methods.py:292-293 | `{r.source_file: r for r in rows}`; stated by `ByKeyLastWins` (definition only) |
| CompareMethods.Sources | scripts/compare_methods.py:290 | exactly the source files of the rows |
| CompareMethods.AllSources | scripts/compare_methods.py:290 | exactly the source files of all method rows |
| CompareMethods.MergeKeys | scripts/compare_methods.py:290 | sorted, and exactly the source files of the baseline or of any method |
| CompareMethods.FloatDelta | scripts/compare_methods.py:332-345 | a delta exactly when both values exist, equal to their difference; a ratio exactly when the baseline is also non-zero, times the baseline giving the method's value |
| CompareMethods.IntDelta | scripts/compare_methods.py:346-351 | the same for `n_valid`, with an integer delta and a float ratio |
| CompareMethods.BaselineEntries | scripts/compare_methods.py:308-317 | eight baseline columns, starting with the source file |
| CompareMethods.MethodEntries | scripts/compare_methods.py:319-351 | ten columns per method, and the delta and ratio columns hold `FloatDelta` and `IntDelta` of the baseline and method values |
| CompareMethods.WideEntries | scripts/compare_methods.py:308-351 | 8 + 10 columns per method |
| CompareMethods.LongEntries | scripts/compare_methods.py:353-368 | twelve long-row fields, starting with the source file and the method |
| CompareMethods.LongDeltasMatchWide | scripts/compare_methods.py:332-368 | the long rows' deltas equal the wide rows' deltas |
| CompareMethods.LongRowsOf | scripts/compare_methods.py:319-368 | one long row per method for each key |
| CompareMethods.LongRowsOfAt | scripts/compare_methods.py:319-368 | the j-th long row of a key is built from method j |
| CompareMethods.LongRows | scripts/compare_methods.py:299-368 | keys times methods long rows |
| CompareMethods.WideRows | scripts/compare_methods.py:299-370 | one wide row per key |
| CompareMethods.WideRowsAt | scripts/compare_methods.py:299-370 | the i-th wide row is the dict of key i's entries |
| CompareMethods.MethodKeysNotSourceFile | scripts/compare_methods.py:326-351 | no method column is named `source_file` |
| CompareMethods.WideKeysAfterFirst | scripts/compare_methods.py:308-351 | only the first wide entry is `source_file` |
| CompareMethods.WideEntriesFirst | scripts/compare_methods.py:309 | the first wide entry is the key |
| CompareMethods.WideRowSourceFile | scripts/compare_methods.py:308-351 | every wide row's `source_file` is its key, whatever the method names |
| CompareMethods.WideEntriesSnoc | scripts/compare_methods.py:319-351 | each method appends its ten columns |
| CompareMethods.LongRowsSnoc | scripts/compare_methods.py:353-368 | each method appends one long row |
| CompareMethods.MethodColumns | scripts/compare_methods.py:320-368 | one method step writes its columns into the row dict and builds its long row |
| CompareMethods.WideRow | scripts/compare_methods.py:300-368 | the per-key loop builds the wide row dict and the long rows |
| CompareMethods.PutEntries | scripts/compare_methods.py:308-317 | writing entries one by one gives the later-wins dict |
| CompareMethods.WideFields | scripts/compare_methods.py:373-397 | eight baseline fields in fixed order, then ten per method |
| CompareMethods.MethodTablesOf | scripts/compare_methods.py:287 | one table per method name, in order |
| CompareMethods.SortedNames | scripts/compare_methods.py:285 | sorted and exactly the discovered names |
| CompareMethods.ComparisonOf | scripts/compare_methods.py:280-370 | SystemExit "No summary.csv files found under <methods_root>" exactly when no method summaries are found |
| CompareMethods.MethodRowsOf | scripts/compare_methods.py:287 | each method's rows are the loaded rows of its summary |
| CompareMethods.WideAndLongRowsSnoc | scripts/compare_methods.py:299-370 | each key appends one wide row and its long rows |
| CompareMethods.Compare | scripts/compare_methods.py:280-370 | the main loop computes `ComparisonOf`, including its SystemExit message |
| CollectFiles.NormChar | scripts/collect_files.py:68-70 | each character contributes at most one lowercase alphanumeric, and a lowercase alphanumeric is kept |
| CollectFiles.NormText | scripts/collect_files.py:68-70 | normalised text is no longer than the input |
| CollectFiles.NormTextAlnum | scripts/collect_files.py:68-70 | normalised text is no longer than the input and is entirely lowercase alphanumeric |
| CollectFiles.NormTextKeepsAlnum | scripts/collect_files.py:68-70 | lowercase alphanumeric text is already normalised |
| CollectFiles.NormTextIdempotent | scripts/collect_files.py:68-70 | normalising twice is normalising once |
| CollectFiles.SplitAtSeparators | scripts/collect_files.py:75 | `re.split` returns at least one piece |
| CollectFiles.NonEmpty | scripts/collect_files.py:76 | filtering keeps only non-empty pieces from the input |
| CollectFiles.SplitAtSeparatorsNoSeparator | scripts/collect_files.py:75 | no piece contains a separator |
| CollectFiles.SplitAtSeparatorsConcat | scripts/collect_files.py:75 | the pieces concatenate to the name without its separators |
| CollectFiles.ConcatNonEmpty | scripts/collect_files.py:76 | dropping empty pieces does not change the concatenation |
| CollectFiles.TokenizeProperties | scripts/collect_files.py:73-76 | tokens are non-empty and separator-free, and together spell the name without separators |
| CollectFiles.Tokenize | scripts/collect_files.py:73-76 | every token is non-empty and holds no separator |
| CollectFiles.Similarity | scripts/collect_files.py:79-82 | an empty side scores 0, and any ratio in range gives a score in [0, 1] |
| CollectFiles.BestSnoc | scripts/collect_files.py:103-121 | scanning one more candidate is one comparison step |
| CollectFiles.BestAppend | scripts/collect_files.py:103-121 | scanning two candidate lists in turn continues from the first scan's best |
| CollectFiles.BestIsMaximum | scripts/collect_files.py:103-121 | the scan's best is at least the start and every candidate's score, and is the start or some candidate's score and reason |
| CollectFiles.NormTokens | scripts/collect_files.py:104-105 | normalised tokens are non-empty |
| CollectFiles.TokenCandidates | scripts/collect_files.py:106-111 | one "token" candidate per token, in order |
| CollectFiles.WindowCandidates | scripts/collect_files.py:113-121 | one candidate per window of `win` consecutive tokens, none when there are too few tokens |
| CollectFiles.KeywordScore | scripts/collect_files.py:85-122 | an empty side scores 0 ("empty"); a substring scores 1 ("substring") |
| CollectFiles.KeywordScoreFuzzy | scripts/collect_files.py:102-122 | otherwise the score is in [0, 1], at least the full-name similarity and every token's similarity, and is reported as "full" unless a token or window beat it |
| CollectFiles.BestCoversTokens | scripts/collect_files.py:103-111 | the best score is at least every token's similarity |
| CollectFiles.ScanWindows | scripts/collect_files.py:113-121 | the window loop computes the best over the window candidates |
| CollectFiles.ScanTokens | scripts/collect_files.py:103-111 | the token loop computes the best over the token candidates |
| CollectFiles.BestKeywordScore | scripts/collect_files.py:85-122 | `_best_keyword_score` computes `KeywordScore` |
| CollectFiles.KeywordScoreOf | scripts/collect_files.py:186-193 | each keyword's score is its keyword score against the filename |
| CollectFiles.ScoreMap | scripts/collect_files.py:186-202 | the score dict has exactly the keywords as keys, each mapped to its score |
| CollectFiles.ScoreMapLookup | scripts/collect_files.py:186-202 | every keyword looks up its own score |
| CollectFiles.LeaderOf | scripts/collect_files.py:186-202 | the keyword that leads after the loop; stated by `LeaderIsFirstMaximum` (definition only) |
| CollectFiles.LeaderIsFirstMaximum | scripts/collect_files.py:186-202 | the leader's score is at least every keyword's; a zero leader is ("", 0); otherwise it is the first keyword to reach the maximum |
| CollectFiles.KeywordSnoc | scripts/collect_files.py:186-193 | one more keyword updates the dict and replaces the leader only on a strictly higher score |
| CollectFiles.ScoreOne | scripts/collect_files.py:187-193 | one loop step as `KeywordSnoc` specifies |
| CollectFiles.ScoreKeywords | scripts/collect_files.py:186-202 | the keyword loop computes the score dict and the leader |
| CollectFiles.IncludeMode | scripts/collect_files.py:204 | `(include_mode or "any").strip().lower()`; compared with "all" by `CheckInclude` (definition only) |
| CollectFiles.IncludeOk | scripts/collect_files.py:205-211 | the include test; computed by `CheckInclude` (definition only) |
| CollectFiles.ExcludeHit | scripts/collect_files.py:213-215 | the exclude test; computed by `CheckExclude` (definition only) |
| CollectFiles.CheckInclude | scripts/collect_files.py:204-211 | "all" needs every keyword to reach the threshold, any other mode needs some keyword to, and no keywords always pass |
| CollectFiles.CheckExclude | scripts/collect_files.py:213-215 | excluded exactly when some exclude keyword reaches the threshold |
| CollectFiles.DecideInclude | scripts/collect_files.py:176-225 | included exactly when the include test passes and no exclude keyword hits; the score dicts and leaders are as specified |
| CollectFiles.ShortHash | scripts/collect_files.py:54-55 | the short hash is 8 characters long |
| CollectFiles.ShortenName | scripts/collect_files.py:58-65 | a short name is kept; a long one becomes a prefix, "_" and the hash at exactly `max_len`, or the hash alone below 10 |
| CollectFiles.Placeholder | scripts/collect_files.py:161 | `{key}` is the key wrapped in braces |
| CollectFiles.Substitute | scripts/collect_files.py:157-162 | each context entry in order replaces its `{key}`; computed by `SafeTemplateSubstitute` (definition only) |
| CollectFiles.SubstituteWithoutBraces | scripts/collect_files.py:157-162 | a template without `{` is returned unchanged, whatever the context |
| CollectFiles.PlaceholderInPlaceholder | scripts/collect_files.py:161 | a `{key}` placeholder with a brace-free key contains no other placeholder |
| CollectFiles.SubstitutePlaceholder | scripts/collect_files.py:157-162 | a lone `{k}` placeholder becomes the context's value for `k`, when keys and value are brace-free |
| CollectFiles.SafeTemplateSubstitute | scripts/collect_files.py:157-162 | the substitution loop computes `Substitute` |
| CollectFiles.SubstituteWithoutPlaceholders | scripts/collect_files.py:157-162 | a template without placeholders is returned unchanged |
| CollectFiles.SubstituteOneKey | scripts/collect_files.py:157-162 | a single key is replaced everywhere: split at the placeholder and join with the value |
| CollectFiles.SubstituteTwo | scripts/collect_files.py:157-162 | two keys are replaced in the context's order |
| CollectFiles.CollectRunNameDefault | scripts/collect_files.py:318-320 | the default run name is `collect_<timestamp>_<job>` |
| CollectFiles.CollectRunName | scripts/collect_files.py:318-320 | a set template without braces is the run name verbatim |
| CollectFiles.Renamed | scripts/collect_files.py:125-132 | every named group is renamed through the mapping, keeping its value |
| CollectFiles.PutGroups | scripts/collect_files.py:146-153 | writing groups into the metadata dict gives the later-wins dict |
| CollectFiles.ExtractMeta | scripts/collect_files.py:135-154 | `_extract_meta` is the later-wins dict of every rule's renamed groups |
| CollectFiles.ExtractMetaLastWins | scripts/collect_files.py:135-154 | the keys are every group name, and each holds its last rule's value |
| CollectFiles.ListOption | scripts/collect_files.py:282-294 | the first truthy setting wins: a list setting is used as given, a text setting is split into clean items; when the first key is unset the second key is used the same way, and when both are unset the default |
| CollectFiles.KeywordTextItems | scripts/collect_files.py:287-292 | keywords given as text become clean comma items |
| CollectFiles.OverflowLimitAsWritten | scripts/collect_files.py:383-384 | the tighter limit is at least 16 and is 16 or the basename limit minus the overflow |
| CollectFiles.PlaceAsWrittenStaysTooLong | scripts/collect_files.py:379-386 | as written, a 230-character directory with a 50-character name stays 281 > 240 characters long |
| CollectFiles.PlaceAsWritten | scripts/collect_files.py:377-386 | as written: a short path is kept; an over-long path whose name fits line 384's limit `max(16, basename_max_len - overflow)` (so also any name of at most 16 characters) is left unchanged, still over the limit, and otherwise only the name is cut to exactly that limit; the path never grows |
| CollectFiles.Place | scripts/collect_files.py:375-386 | corrected: an over-long path is cut to exactly `path_max_len` when the name has room for it, and is never over the limit when the directory leaves 16 characters; it never grows, and a short path is kept |
| CollectFiles.MetaItems | scripts/collect_files.py:135-154 | the metadata dict as items: distinct keys, exactly the keys of `ExtractMeta`, each with its value there |
| CollectFiles.Context | scripts/collect_files.py:355-364 | the seven standard keys come first and in order; a metadata key reads the metadata value, any other key the standard value |
| CollectFiles.DestRelDir | scripts/collect_files.py:366-369 | the relative folder with `preserve_tree`; otherwise a substituted subfolder that neither starts nor ends with a slash or backslash, and a brace-free template stripped as it stands |
| CollectFiles.WithExtension | scripts/collect_files.py:372-374 | the source's suffix is appended exactly when the new name has none and the source has one; a non-empty name then has the source's suffix |
| CollectFiles.NewName | scripts/collect_files.py:371-375 | the filled-in name with its extension, kept when it fits `basename_max_len`, and otherwise a prefix, "_" and the hash within the limit |
| CollectFiles.CopyFolder | scripts/collect_files.py:377 | an empty relative folder adds no component to `<out_dir>/copied` |
| CollectFiles.Destination | scripts/collect_files.py:355-386 | corrected rule, built on `Place` rather than line 384: the destination is the folder and new name when they fit, never longer than that, and within `path_max_len` when the folder leaves 16 characters |
| CollectFiles.DestinationAsWritten | scripts/collect_files.py:355-386 | the program's destination, built on `PlaceAsWritten`: the folder and new name when they fit, never longer than that; an over-long path keeps a name that fits line 384's limit, and otherwise cuts the name to exactly that limit, which can leave the path over `path_max_len` |
| CollectFiles.BaseContextOrigName | scripts/collect_files.py:358 | the standard context maps `orig_name` to the source name |
| CollectFiles.ContextOrigName | scripts/collect_files.py:358-364 | metadata that does not redefine `orig_name` leaves it the source name in `ctx` |
| CollectFiles.DefaultRenameKeepsName | scripts/collect_files.py:358-375 | with the default rename template, a brace-free name that fits and that metadata does not override is kept unchanged |
| CheckEnv.SepCount | scripts/check_env.py:73 | the number of separators is bounded by the length |
| CheckEnv.WithoutSeps | scripts/check_env.py:73 | removing separators removes exactly their number of characters |
| CheckEnv.VersionTokens | scripts/check_env.py:73 | `re.split(r"[.+-]")` gives one more token than there are separators |
| CheckEnv.VersionTokensConcat | scripts/check_env.py:73 | the tokens spell the version without separators |
| CheckEnv.VersionTokensNoSeps | scripts/check_env.py:73 | no token contains a separator |
| CheckEnv.NoSepsOneToken | scripts/check_env.py:73 | a separator-free version is one token |
| CheckEnv.TokensAtSep | scripts/check_env.py:73 | a leading separator-free token is split off at the first separator |
| CheckEnv.DigitsOf | scripts/check_env.py:74 | a token's digits, in order; empty exactly when the token has none; a one-character token is kept when it is a digit and dropped otherwise |
| CheckEnv.DigitsOfAppend | scripts/check_env.py:74 | the digits of a concatenation are the digits of each part, in order |
| CheckEnv.DecimalValue | scripts/check_env.py:75-77 | `int(token_digits)` for ASCII digits; its value is stated by `TwentyTwo` and `TokenContribution` (definition only) |
| CheckEnv.Normalized | scripts/check_env.py:73-79 | at most one non-negative integer per token |
| CheckEnv.NormalizeVersion | scripts/check_env.py:70-80 | the loop computes `Version` |
| CheckEnv.Version | scripts/check_env.py:70-80 | `_normalize_version`: one integer per token that has digits; computed by `NormalizeVersion` (definition only) |
| CheckEnv.NormalizedAppend | scripts/check_env.py:73-79 | normalisation is compositional over token lists |
| CheckEnv.TokenContribution | scripts/check_env.py:74-77 | a digit-free token contributes nothing, and any other token contributes the integer of its digits |
| CheckEnv.DigitsJoinAcrossLetters | scripts/check_env.py:74 | "1rc2" normalises to (12,): digits join across letters |
| CheckEnv.IntLtIsStrictTotalOrder | scripts/check_env.py:89 | integer order is a strict total order, so tuple comparison is one as well |
| CheckEnv.TupleGe | scripts/check_env.py:89 | Python's `>=` on integer tuples: not lexicographically smaller (definition only) |
| CheckEnv.VersionOk | scripts/check_env.py:83-89 | an empty installed version fails, and an empty minimum passes |
| CheckEnv.VersionOkReflexive | scripts/check_env.py:83-89 | a version satisfies itself |
| CheckEnv.VersionOkTotal | scripts/check_env.py:83-89 | of two versions, one satisfies the other |
| CheckEnv.VersionOkTransitive | scripts/check_env.py:83-89 | the version check is transitive |
| CheckEnv.VersionOkAtFirstDifference | scripts/check_env.py:83-89 | at the first differing component, the installed version passes exactly when its component is greater |
| CheckEnv.VersionOkProperPrefix | scripts/check_env.py:83-89 | an installed version whose tuple is a proper prefix of the minimum's fails |
| CheckEnv.VersionOkExtends | scripts/check_env.py:83-89 | an installed version whose tuple extends the minimum's passes |
| CheckEnv.TwentyTwo | scripts/check_env.py:74-77 | the token "22" is all digits and denotes 22 |
| CheckEnv.NormalizedOneTwentyTwo | scripts/check_env.py:73-79 | tokens "1", "22" normalise to (1, 22), and "1", "22", "0" to (1, 22, 0) |
| CheckEnv.VersionOneTwentyTwo | scripts/check_env.py:70-80 | "1.22" normalises to (1, 22) |
| CheckEnv.VersionOneTwentyTwoZero | scripts/check_env.py:70-80 | "1.22.0" normalises to (1, 22, 0) |
| CheckEnv.PrefixVersionIsOlder | scripts/check_env.py:83-89 | "1.22" does not meet the minimum "1.22.0", because a shorter tuple compares as smaller |
| CheckEnv.StatusOf | scripts/check_env.py:371-374 | OK exactly when `ok` is true; otherwise MISSING unless `required` is explicitly false, and WARN then |
| CheckEnv.StatusText | scripts/check_env.py:371-374 | status words are 2 to 7 characters long, so the padded column is 7 wide |
| CheckEnv.HumanLine | scripts/check_env.py:375-377 | each line starts with the status, left-justified to 7, in brackets |
| CheckEnv.LinesOf | scripts/check_env.py:369-377 | one line per result |
| CheckEnv.HumanLines | scripts/check_env.py:369-377 | one report line per result |
| CheckEnv.LinesOfAt | scripts/check_env.py:369-377 | line i renders result i |
| CheckEnv.HumanLinesAt | scripts/check_env.py:369-377 | report line i is the human line of result i |
| CheckEnv.HumanLinesSnoc | scripts/check_env.py:369-377 | each result appends its own line |
| CheckEnv.FormatHuman | scripts/check_env.py:368-378 | the report is the lines joined by newlines |
| CheckEnv.ExitCode | scripts/check_env.py:404-413 | 0 or 1, and 0 exactly when every entry is ok or not required |
| CheckEnv.Satisfied | scripts/check_env.py:404-406 | an entry is ok or not required (definition only; stated by `ExitCode`) |
| CheckEnv.ExitZeroIffNothingMissing | scripts/check_env.py:404-413 | exit code 0 exactly when no entry reports MISSING |

## Left out

- The masking and statistics engine is not modelled. `src/afm_pipeline/processing.py` is a stub, and the per-file processor is a parameter of `Summarize.SummarizeFolder`. The Gwyddion job runner `scripts/run_pygwy_job.py`, the aggregation entry point and the plotting module belong to it or sit beside it.
- File-system and process I/O is not modelled: reading YAML, JSON and CSV; writing CSV, manifests and metadata; `glob`, `rglob`, `iterdir`, `is_file` and `exists`; `mkdir`; copying files; and running subprocesses. Each result enters as a parameter or a datatype value.
- Library behaviour is assumed through parameters: `SequenceMatcher.ratio`, MD5, regex matching and named groups, Python's float and int parsing, and path resolution.
- Logging is not modelled: the `log.warning` calls at src/afm_pipeline/summarize.py:82, 85 and 124 have no effect on any result.
- Time and the environment are left out: the timestamp and `PYTHON2_EXE` are parameters.
- Floating point is modelled as reals. NaN and infinities are an explicit `Finite`/non-finite tag on parsed values, and a NaN grid cell is `None`.
- The grid is a sequence of rows, not a numpy array.
- The config is typed records. A key that may be absent or null is an `Option` that reads both as `None`, which matches the source wherever it reads the key with `get(...) or default` (a profile at src/afm_pipeline/cli.py:21, scripts/run_job.py:44 and scripts/run_config_suite.py:38, and the job and collect settings). A column's `default` is read with `get("default", "")`, which keeps a null, so there a null is `Some(JNull)` and an absent key is `None`. `isinstance` checks on malformed config values are not modelled.
- A null config section: the model has no null section, only an absent or empty one. The source reads these sections with `get(key, default)` and no `or`, so a null one is kept and then raises a `TypeError` or `AttributeError`. The model reads each of them as empty instead:
  - `profiles` (src/afm_pipeline/cli.py:18, 74 and scripts/make_job_manifest.py:31): the model gives "Unknown profile".
  - `modes` and `csv_modes` (scripts/make_job_manifest.py:43-46): the model gives "not found in config.modes" or "not found in config.csv_modes".
  - `csv_modes` (src/afm_pipeline/summarize.py:108): the model gives "Unknown csv_mode".
  - `result_schemas` (src/afm_pipeline/summarize.py:26): the model gives "Unknown result schema".
  - `summarize` (src/afm_pipeline/summarize.py:114): the model gives a non-recursive listing.
  - `fields` (src/afm_pipeline/summarize.py:30) and `columns` (src/afm_pipeline/summarize.py:66, 129): the model gives no fields or no columns.
- Whitespace is Python's `str.isspace` set. `_norm_text` is exact: only `a-z0-9` survive it, and `CollectFiles.NormChar` lists every character that lowers into that range.
- `Strings.LowerAscii`: lowers ASCII letters only. It is used for `include_mode`, which is compared with "all".
- `CheckEnv.DigitsOf`: `isdigit` is taken as the ASCII digits. Other Unicode digits, and the `ValueError` path at scripts/check_env.py:78-79 that only they can reach, are not modelled.
- `Strings.JoinPath`: an absolute name replaces the directory, as in pathlib, but pathlib's normalisation of `.` components, repeated slashes and a trailing slash is not modelled; for an empty `name`, `Path(dir) / ""` is `dir` while the model gives `dir + "/"` (reachable from `CollectFiles.Place` with an empty new name).
- `Strings.PathLtIsStrictTotalOrder`: path order is component-wise string order. Windows case-insensitive path comparison is not modelled.
- `CollectFiles.Destination`: of the collect loop (`collect_job`), the run name, the option lists, the include decision, the context, the subfolder, the new name and the destination path are modelled. Walking the input, copying, counters, skipping and the metadata file are I/O. `str(src)`, `src.name` and the result of `relative_to` enter as the fields of `Source`. `CollectFiles.Destination` uses the corrected `Place`, not the rule of scripts/collect_files.py:384; the program's own composite is `CollectFiles.DestinationAsWritten`, so the path-length bound holds only for the corrected one.
- `Strings.Suffix`: `Path(new_name).suffix` is taken on the whole new name. A rename result holding a `/` is not split into path components first, and names that are a single component are the only ones the model reads exactly.
- `CollectFiles.CopyFolder`: like `Strings.JoinPath`, a substituted subfolder holding `..` or inner separators is joined as text; pathlib's splitting into components is not modelled.
- `JobManifest.BuildManifest`: a `grid`, `channel_defaults` or `unit_conversions` set to null in the config is written as null by `cfg.get(key, {})`. The model writes an empty object, because its config records do not tell null from absent.
- `RunJob.Plan`: the subprocess commands, their exit codes and the lookup of `copied_root` in the newest `run_metadata.json` are left out. The copied root is a parameter, and a failing step is not modelled.
- `ConfigSuite.CollectConfigs`: the per-config command loop after mode resolution is subprocess I/O and is left out.
- `CheckEnv.HumanLine`: its contract states only the bracketed status column. The `%-22s` component column and the detail come from the definition. The package, Gwyddion and architecture probes that produce the entries are I/O.
- `Summarize.RowRoundTrip`: it assumes parsers that invert rendering. Number formatting in the CSV writer is a parameter.
- `CompareMethods.Compare`: the plots after the tables are left out.
- `CollectFiles.Similarity`: `SequenceMatcher.ratio` is a parameter, so only the empty-string rule and the [0, 1] bound are stated.

## Findings

| source | as written | input that shows it | evidently intended | confidence | as-written member | corrected member |
|---|---|---|---|---|---|---|
| scripts/collect_files.py:379-386 | the second shortening limit is `max(16, basename_max_len - overflow)`, which ignores the length of the current name; `CollectFiles.DestinationAsWritten` is the whole destination computed this way | a 230-character destination directory with a 50-character name and the defaults 140 and 240: the path is 281 characters long and the overflow 41, so the limit is 99, the 50-character name is unchanged and the path stays 281 > 240 | shorten the name by the overflow: limit `max(16, len(new_name) - overflow)`, so the path fits whenever the directory leaves room for 16 characters | not executed | CollectFiles.PlaceAsWrittenStaysTooLong | CollectFiles.Place |
