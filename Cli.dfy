/** The packaged command line: choosing the processing and CSV modes from
    explicit options and a profile, choosing the plotting mode, and the
    dispatch between the `summarize` and `plot` commands. */
module Cli {
  import opened Common
  import opened Config

  /** The start of the message for a profile name the config does not define. */
  const UnknownProfile := "Unknown profile: "

  /** The message when no processing mode was given or found. */
  const ProcessingModeRequired := "processing_mode is required (pass --processing-mode or a profile)."

  /** The message when no CSV mode was given or found. */
  const CsvModeRequired := "csv_mode is required (pass --csv-mode or a profile)."

  /** The message when no plotting mode was given or found. */
  const PlottingModeRequired := "plotting_mode is required (pass --plotting-mode or a profile with plotting_modes)."

  /** The start of the argument parser's message for an unknown command. */
  const InvalidChoice := "argument command: invalid choice: "

  /** The modes a profile supplies, and whether the profile name resolved:
      `None` for an unknown profile, the explicit values when no profile
      was given. */
  function ProfileModes(cfg: Cfg, profile: Option<string>, processingMode: Option<string>, csvMode: Option<string>)
    : (r: Option<(Option<string>, Option<string>)>)
    ensures r.None? <==> Truthy(profile) && profile.value !in cfg.profiles
    ensures r.Some? && Truthy(processingMode) ==> r.value.0 == processingMode
    ensures r.Some? && Truthy(csvMode) ==> r.value.1 == csvMode
    ensures r.Some? && !Truthy(profile) ==> r.value == (processingMode, csvMode)
  {
    if Truthy(profile) then
      if profile.value !in cfg.profiles then None
      else
        var prof := ProfileOrEmpty(cfg, profile.value);
        Some((Or(processingMode, prof.processingMode), Or(csvMode, prof.csvMode)))
    else Some((processingMode, csvMode))
  }

  /** `resolve_modes`: an unknown profile is a `ValueError`; an explicit mode
      wins over the profile's; a mode still empty afterwards is a
      `ValueError`, the processing mode being checked first. */
  function ResolveModes(cfg: Cfg, profile: Option<string>, processingMode: Option<string>, csvMode: Option<string>)
    : (r: Result<(string, string)>)
    ensures Truthy(profile) && profile.value !in cfg.profiles ==>
      r == Err(ValueError(UnknownProfile + profile.value))
    ensures r.Ok? ==> r.value.0 != "" && r.value.1 != ""
    ensures r.Ok? && Truthy(processingMode) ==> r.value.0 == processingMode.value
    ensures r.Ok? && Truthy(csvMode) ==> r.value.1 == csvMode.value
    ensures r.Ok? && !Truthy(processingMode) ==>
      Truthy(profile) && ProfileOrEmpty(cfg, profile.value).processingMode == Some(r.value.0)
    ensures r.Ok? && !Truthy(csvMode) ==>
      Truthy(profile) && ProfileOrEmpty(cfg, profile.value).csvMode == Some(r.value.1)
    ensures Truthy(profile) && profile.value in cfg.profiles && cfg.profiles[profile.value].None?
            && !Truthy(processingMode) ==>
      r == Err(ValueError(ProcessingModeRequired))
    ensures Truthy(processingMode) && Truthy(csvMode) && !Truthy(profile) ==>
      r == Ok((processingMode.value, csvMode.value))
    ensures ProfileModes(cfg, profile, processingMode, csvMode).Some? ==>
      var (pm, cm) := ProfileModes(cfg, profile, processingMode, csvMode).value;
      (Truthy(pm) && Truthy(cm) ==> r == Ok((pm.value, cm.value)))
      && (!Truthy(pm) ==> r == Err(ValueError(ProcessingModeRequired)))
      && (Truthy(pm) && !Truthy(cm) ==> r == Err(ValueError(CsvModeRequired)))
  {
    var chosen := ProfileModes(cfg, profile, processingMode, csvMode);
    if chosen.None? then Err(ValueError(UnknownProfile + profile.value))
    else if !Truthy(chosen.value.0) then
      Err(ValueError(ProcessingModeRequired))
    else if !Truthy(chosen.value.1) then
      Err(ValueError(CsvModeRequired))
    else Ok((chosen.value.0.value, chosen.value.1.value))
  }

  /** `resolve_plotting_mode`: an explicit mode is returned without looking
      at the profiles; otherwise the first of a known profile's
      `plotting_modes`; an unknown profile, or no mode at all, is a
      `ValueError`. */
  function ResolvePlottingMode(cfg: Cfg, profile: Option<string>, plottingMode: Option<string>): (r: Result<string>)
    ensures Truthy(plottingMode) ==> r == Ok(plottingMode.value)
    ensures !Truthy(plottingMode) && Truthy(profile) && profile.value !in cfg.profiles ==>
      r == Err(ValueError(UnknownProfile + profile.value))
    ensures !Truthy(plottingMode) ==>
      (r.Ok? <==> Truthy(profile) && profile.value in cfg.profiles
                  && ListOr(ProfileOrEmpty(cfg, profile.value).plottingModes, []) != [])
    ensures !Truthy(plottingMode) && r.Ok? ==>
      r.value == ProfileOrEmpty(cfg, profile.value).plottingModes.value[0]
  {
    if Truthy(plottingMode) then Ok(plottingMode.value)
    else if Truthy(profile) && profile.value !in cfg.profiles then
      Err(ValueError(UnknownProfile + profile.value))
    else
      var modes := if Truthy(profile) then ListOr(ProfileOrEmpty(cfg, profile.value).plottingModes, []) else [];
      if modes != [] then Ok(modes[0])
      else Err(ValueError(PlottingModeRequired))
  }

  // ----- main -----

  datatype Command = Summarize | Plot

  /** `main`: the command is one of the two `choices` (anything else is the
      argument parser's exit); `summarize` runs the summary, every other
      accepted command the plot. */
  function Dispatch(command: string): (r: Result<Command>)
    ensures r == Ok(Summarize) <==> command == "summarize"
    ensures r == Ok(Plot) <==> command == "plot"
    ensures r.Err? <==> command != "summarize" && command != "plot"
  {
    if command != "summarize" && command != "plot" then
      Err(SystemExit(InvalidChoice + command))
    else if command == "summarize" then Ok(Summarize)
    else Ok(Plot)
  }
}
