/**
  cargo-dub itself (src/main.rs `main`, `run` and the `execute_*`
  functions): resolve the `dub` executable, pick the subcommand (`dub run`
  with default options when none is given), build its command line, run it,
  and end with the child's exit code or an error message.

  Each `Execute` method appends arguments to a `Command` the way the source
  does and is proved to run exactly the argument list of its subcommand's
  specification function; `RunOutcome` says what the whole program ends
  with, and the lemmas at the end state how it behaves.
*/
module CargoDub {
  import opened Wrappers
  import opened Tokens
  import opened Request
  import opened Process
  import opened Resolver
  import opened SharedOptions
  import opened Subcommands

  // ---------------------------------------------------------------------
  // What gets run

  /** The subcommand run when none is given. */
  const DefaultCommand: DubCommands := DubCommands.Run(DefaultOptions)

  /** The subcommand `run` dispatches on, whichever way it was spelt. */
  function Selected(command: Option<Commands>): DubCommands
  {
    match command
    case None => DefaultCommand
    case Some(Dub(cmd)) => cmd.UnwrapOr(DefaultCommand)
    case Some(Direct(cmd)) => cmd
  }

  /** The name of the dub subcommand each variant runs; `raw` passes its arguments as they are. */
  function SubcommandName(c: DubCommands): string
    requires !c.Raw?
  {
    match c
    case Run(_) => "run"
    case Build(_) => "build"
    case Convert(_) => "convert"
    case Describe(_) => "describe"
    case Add(_) => "add"
    case Remove(_) => "remove"
    case Fetch(_) => "fetch"
    case Init(_) => "init"
    case Clean(_) => "clean"
    case Lint(_) => "lint"
  }

  /** The arguments the subcommand passes to dub, or the error it returns before running anything. */
  function Planned(c: DubCommands, dc: Option<string>, files: set<string>): Result<seq<string>, string>
  {
    match c
    case Run(o) => Ok(DubArgs("run", o, dc))
    case Build(o) => Ok(DubArgs("build", o, dc))
    case Convert(f) => ConvertPlan(f, files)
    case Raw(args) => Ok(args)
    case Describe(o) => Ok(DescribeArgs(o, dc))
    case Add(o) => Ok(AddRemoveArgs("add", o, dc))
    case Remove(o) => Ok(AddRemoveArgs("remove", o, dc))
    case Fetch(o) => Ok(FetchArgs(o, dc))
    case Init(o) => Ok(InitArgs(o, dc))
    case Clean(o) => Ok(CleanArgs(o, dc))
    case Lint(o) => Ok(LintArgs(o, dc))
  }

  /** Running a plan with the resolved executable. */
  function PlanOutcome(dub: DubExecutable, plan: Result<seq<string>, string>, os: System): Outcome
  {
    match plan
    case Err(e) => Failed(e)
    case Ok(args) => StatusOutcome(os(dub.path, args))
  }

  /** What `run` ends with: the executable is resolved first, then the
      subcommand is planned and run. */
  function RunOutcome(cli: Cli, windows: bool, dc: Option<string>,
                      files: set<string>, os: System): Outcome
  {
    match Resolve(windows, os)
    case Err(e) => Failed(e)
    case Ok(dub) => PlanOutcome(dub, Planned(Selected(cli.command), dc, files), os)
  }

  // ---------------------------------------------------------------------
  // The subcommands, step by step

  /** `execute_dub`: `dub run|build` and the shared options. */
  method ExecuteDub(dub: DubExecutable, sub: string, opts: DubOptions, dc: Option<string>, os: System)
    returns (r: Outcome)
    ensures r == StatusOutcome(os(dub.path, DubArgs(sub, opts, dc)))
  {
    var cmd := NewCommand(dub);
    cmd.Arg(sub);
    assert cmd.args == [sub];
    BuildDubArgs(cmd, opts, dc);
    assert cmd.args == DubArgs(sub, opts, dc);
    r := ExecuteCommand(cmd, os);
  }

  /** `execute_raw`: the arguments as they are. */
  method ExecuteRaw(dub: DubExecutable, args: seq<string>, os: System) returns (r: Outcome)
    ensures r == StatusOutcome(os(dub.path, args))
  {
    var cmd := NewCommand(dub);
    cmd.Args(args);
    assert cmd.args == args;
    r := ExecuteCommand(cmd, os);
  }

  /** `convert_format`: fail before running anything when the source manifest is missing. */
  method ConvertFormat(dub: DubExecutable, format: Format, files: set<string>, os: System) returns (r: Outcome)
    ensures r == PlanOutcome(dub, ConvertPlan(format, files), os)
  {
    var (source, target) := match format
      case Json => ("dub.sdl", "json")
      case Sdl => ("dub.json", "sdl");
    if source !in files {
      return Failed("Source file '" + source + "' not found");
    }
    var cmd := NewCommand(dub);
    cmd.Args(["convert", "--format=" + target]);
    assert cmd.args == ConvertPlan(format, files).value;
    r := ExecuteCommand(cmd, os);
  }

  /** The `--data=` tokens and `--data-list` are the runs of `describe`'s table. */
  lemma DescribeOwnArgsAre(o: DescribeOptions)
    ensures DescribeOwnArgs(o) == Each(DataFlag, if o.data.Some? then o.data.value else []) + Switch(DataListFlag, o.dataList)
  {
    var runs := RunsOf(DescribeFlags, DescribeFields(o));
    assert runs[..0] == [] && runs[..2] == runs;
    FlattenStep(runs, 0);
    FlattenStep(runs, 1);
  }

  /** `execute_describe`. */
  method ExecuteDescribe(dub: DubExecutable, o: DescribeOptions, dc: Option<string>, os: System)
    returns (r: Outcome)
    ensures r == StatusOutcome(os(dub.path, DescribeArgs(o, dc)))
  {
    var cmd := NewCommand(dub);
    cmd.Arg("describe");
    assert cmd.args == ["describe"];
    if o.data.Some? {
      AppendEach(cmd, DataFlag, o.data.value);
    }
    AppendSwitch(cmd, DataListFlag, o.dataList);
    DescribeOwnArgsAre(o);
    BuildDubArgs(cmd, o.options, dc);
    assert cmd.args == DescribeArgs(o, dc);
    r := ExecuteCommand(cmd, os);
  }

  /** `execute_add_remove`: `dub add|remove`, the packages, the shared options. */
  method ExecuteAddRemove(dub: DubExecutable, sub: string, o: AddRemoveOptions, dc: Option<string>, os: System)
    returns (r: Outcome)
    ensures r == StatusOutcome(os(dub.path, AddRemoveArgs(sub, o, dc)))
  {
    var cmd := NewCommand(dub);
    cmd.Arg(sub);
    assert cmd.args == [sub];
    cmd.Args(o.packages);
    BuildDubArgs(cmd, o.options, dc);
    assert cmd.args == AddRemoveArgs(sub, o, dc);
    r := ExecuteCommand(cmd, os);
  }

  /** `execute_fetch`. */
  method ExecuteFetch(dub: DubExecutable, o: FetchOptions, dc: Option<string>, os: System)
    returns (r: Outcome)
    ensures r == StatusOutcome(os(dub.path, FetchArgs(o, dc)))
  {
    var cmd := NewCommand(dub);
    cmd.Arg("fetch");
    cmd.Arg(o.package);
    assert cmd.args == ["fetch", o.package];
    AppendOpt(cmd, CacheFlag, o.cache);
    BuildDubArgs(cmd, o.options, dc);
    assert cmd.args == FetchArgs(o, dc);
    r := ExecuteCommand(cmd, os);
  }

  /** `execute_init`. */
  method ExecuteInit(dub: DubExecutable, o: InitOptions, dc: Option<string>, os: System)
    returns (r: Outcome)
    ensures r == StatusOutcome(os(dub.path, InitArgs(o, dc)))
  {
    var cmd := NewCommand(dub);
    cmd.Arg("init");
    assert cmd.args == ["init"];
    if o.directory.Some? {
      cmd.Arg(o.directory.value);
    }
    assert cmd.args == ["init"] + o.directory.ToSeq();
    cmd.Args(o.dependencies);
    cmd.Arg(TypeFlag + TypeName(o.projectType));
    AppendSwitch(cmd, NonInteractiveFlag, o.nonInteractive);
    BuildDubArgs(cmd, o.options, dc);
    assert cmd.args == InitArgs(o, dc);
    r := ExecuteCommand(cmd, os);
  }

  /** `execute_clean`. */
  method ExecuteClean(dub: DubExecutable, o: CleanOptions, dc: Option<string>, os: System)
    returns (r: Outcome)
    ensures r == StatusOutcome(os(dub.path, CleanArgs(o, dc)))
  {
    var cmd := NewCommand(dub);
    cmd.Arg("clean");
    assert cmd.args == ["clean"];
    if o.package.Some? {
      cmd.Arg(o.package.value);
    }
    assert cmd.args == ["clean"] + o.package.ToSeq();
    AppendSwitch(cmd, AllPackagesFlag, o.allPackages);
    BuildDubArgs(cmd, o.options, dc);
    assert cmd.args == CleanArgs(o, dc);
    r := ExecuteCommand(cmd, os);
  }

  /** The first four runs of `lint`'s table. */
  lemma LintCheckRunsAre(o: LintOptions)
    ensures var runs := RunsOf(LintFlags, LintFields(o));
      && runs[0] == Switch(SyntaxCheckFlag, o.syntaxCheck) && runs[1] == Switch(StyleCheckFlag, o.styleCheck)
      && runs[2] == Opt(ErrorFormatFlag, o.errorFormat) && runs[3] == Switch(ReportFlag, o.report)
  {
  }

  /** The last four runs of `lint`'s table. */
  lemma LintReportRunsAre(o: LintOptions)
    ensures var runs := RunsOf(LintFlags, LintFields(o));
      && runs[4] == Opt(ReportFormatFlag, o.reportFormat) && runs[5] == Opt(ReportFileFlag, o.reportFile)
      && runs[6] == Each(ImportPathsFlag, if o.importPaths.Some? then o.importPaths.value else [])
      && runs[7] == Opt(DscannerConfigFlag, o.dscannerConfig)
  {
  }

  /** The flags of the first four runs of `lint`'s table, in order. */
  function LintChecks(o: LintOptions): seq<string>
  {
    Switch(SyntaxCheckFlag, o.syntaxCheck) + Switch(StyleCheckFlag, o.styleCheck)
      + Opt(ErrorFormatFlag, o.errorFormat) + Switch(ReportFlag, o.report)
  }

  /** The flags of the last four runs of `lint`'s table, in order. */
  function LintReport(o: LintOptions): seq<string>
  {
    Opt(ReportFormatFlag, o.reportFormat) + Opt(ReportFileFlag, o.reportFile)
      + Each(ImportPathsFlag, if o.importPaths.Some? then o.importPaths.value else [])
      + Opt(DscannerConfigFlag, o.dscannerConfig)
  }

  lemma LintChecksFlatten(o: LintOptions)
    ensures Flatten(RunsOf(LintFlags, LintFields(o))[..4]) == LintChecks(o)
  {
    LintCheckRunsAre(o);
    FlattenFour(RunsOf(LintFlags, LintFields(o))[..4]);
  }

  lemma LintReportFlatten(o: LintOptions)
    ensures Flatten(RunsOf(LintFlags, LintFields(o))[4..]) == LintReport(o)
  {
    LintReportRunsAre(o);
    FlattenFour(RunsOf(LintFlags, LintFields(o))[4..]);
  }

  /** `lint`'s own flags: the checks, then the report settings. */
  lemma LintOwnArgsAre(o: LintOptions)
    ensures LintOwnArgs(o) == LintChecks(o) + LintReport(o)
  {
    var runs := RunsOf(LintFlags, LintFields(o));
    assert runs == runs[..4] + runs[4..];
    FlattenConcat(runs[..4], runs[4..]);
    LintChecksFlatten(o);
    LintReportFlatten(o);
  }

  /** `execute_lint`. */
  method ExecuteLint(dub: DubExecutable, o: LintOptions, dc: Option<string>, os: System)
    returns (r: Outcome)
    ensures r == StatusOutcome(os(dub.path, LintArgs(o, dc)))
  {
    var cmd := NewCommand(dub);
    cmd.Arg("lint");
    assert cmd.args == ["lint"];
    if o.package.Some? {
      cmd.Arg(o.package.value);
    }
    assert cmd.args == ["lint"] + o.package.ToSeq();
    AppendLintFlags(cmd, o);
    BuildDubArgs(cmd, o.options, dc);
    assert cmd.args == LintArgs(o, dc);
    r := ExecuteCommand(cmd, os);
  }

  /** `lint`'s own flags, in the order of its table. */
  method AppendLintFlags(cmd: Command, o: LintOptions)
    modifies cmd
    ensures cmd.args == old(cmd.args) + LintOwnArgs(o)
  {
    ghost var start := cmd.args;
    AppendLintChecks(cmd, o);
    AppendLintReport(cmd, o);
    LintOwnArgsAre(o);
    assert cmd.args == start + (LintChecks(o) + LintReport(o));
  }

  /** The syntax and style checks, the error format and `--report`. */
  method AppendLintChecks(cmd: Command, o: LintOptions)
    modifies cmd
    ensures cmd.args == old(cmd.args) + LintChecks(o)
  {
    AppendSwitch(cmd, SyntaxCheckFlag, o.syntaxCheck);
    AppendSwitch(cmd, StyleCheckFlag, o.styleCheck);
    AppendOpt(cmd, ErrorFormatFlag, o.errorFormat);
    AppendSwitch(cmd, ReportFlag, o.report);
  }

  /** The report format and file, the import paths and the D-Scanner configuration. */
  method AppendLintReport(cmd: Command, o: LintOptions)
    modifies cmd
    ensures cmd.args == old(cmd.args) + LintReport(o)
  {
    AppendOpt(cmd, ReportFormatFlag, o.reportFormat);
    AppendOpt(cmd, ReportFileFlag, o.reportFile);
    if o.importPaths.Some? {
      AppendEach(cmd, ImportPathsFlag, o.importPaths.value);
    }
    AppendOpt(cmd, DscannerConfigFlag, o.dscannerConfig);
  }

  /** `if on { cmd.arg(name) }`. */
  method AppendSwitch(cmd: Command, name: string, on: bool)
    modifies cmd
    ensures cmd.args == old(cmd.args) + Switch(name, on)
  {
    if on {
      cmd.Arg(name);
    }
  }

  // ---------------------------------------------------------------------
  // The program

  /** `run`: resolve dub, pick the subcommand, execute it. */
  method RunCargoDub(cli: Cli, windows: bool, dc: Option<string>,
                     files: set<string>, os: System) returns (r: Outcome)
    ensures r == RunOutcome(cli, windows, dc, files, os)
  {
    var resolved := NewDubExecutable(windows, os);
    if resolved.Err? {
      return Failed(resolved.error);
    }
    r := ExecuteSelected(resolved.value, Selected(cli.command), dc, files, os);
  }

  /** The `match` of `run`: each subcommand to its `execute_*` function. */
  method ExecuteSelected(dub: DubExecutable, c: DubCommands, dc: Option<string>, files: set<string>, os: System)
    returns (r: Outcome)
    ensures r == PlanOutcome(dub, Planned(c, dc, files), os)
  {
    match c
    case Run(o) => r := ExecuteDub(dub, "run", o, dc, os);
    case Build(o) => r := ExecuteDub(dub, "build", o, dc, os);
    case Convert(f) => r := ConvertFormat(dub, f, files, os);
    case Raw(args) => r := ExecuteRaw(dub, args, os);
    case Describe(o) => r := ExecuteDescribe(dub, o, dc, os);
    case Add(o) => r := ExecuteAddRemove(dub, "add", o, dc, os);
    case Remove(o) => r := ExecuteAddRemove(dub, "remove", o, dc, os);
    case Fetch(o) => r := ExecuteFetch(dub, o, dc, os);
    case Init(o) => r := ExecuteInit(dub, o, dc, os);
    case Clean(o) => r := ExecuteClean(dub, o, dc, os);
    case Lint(o) => r := ExecuteLint(dub, o, dc, os);
  }

  /** `main`: the exit code and the error line. */
  method CargoDubMain(cli: Cli, windows: bool, dc: Option<string>,
                      files: set<string>, os: System) returns (t: Termination)
    ensures t == Terminate(RunOutcome(cli, windows, dc, files, os))
  {
    var r := RunCargoDub(cli, windows, dc, files, os);
    t := Terminate(r);
  }

  // ---------------------------------------------------------------------
  // How the program behaves

  /** `cargo-dub dub CMD` (what `cargo dub CMD` runs) and `cargo-dub CMD`
      run the same subcommand; with none given, both spellings run `dub run`
      with default options. */
  lemma SelectedSpellings(c: DubCommands)
    ensures Selected(Some(Dub(Some(c)))) == c && Selected(Some(Direct(c))) == c
    ensures Selected(None) == DefaultCommand && Selected(Some(Dub(None))) == DefaultCommand
  {
  }

  /** Only `convert` can fail before running dub, and only for a missing
      source manifest; every other plan starts with the subcommand's name,
      and `raw` passes its arguments unchanged. */
  lemma PlannedCases(c: DubCommands, dc: Option<string>, files: set<string>)
    ensures Planned(c, dc, files).Err? <==> c.Convert? && ConvertSource(c.format) !in files
    ensures c.Raw? ==> Planned(c, dc, files) == Ok(c.args)
    ensures !c.Raw? && Planned(c, dc, files).Ok? ==>
      0 < |Planned(c, dc, files).value| && Planned(c, dc, files).value[0] == SubcommandName(c)
  {
    match c
    case Convert(f) => ConvertPlanCases(f, files);
    case Describe(o) => assert DescribeArgs(o, dc)[0] == "describe";
    case Fetch(o) => assert FetchArgs(o, dc)[0] == "fetch";
    case Init(o) => assert InitArgs(o, dc)[0] == "init";
    case Clean(o) => assert CleanArgs(o, dc)[0] == "clean";
    case Lint(o) => assert LintArgs(o, dc)[0] == "lint";
    case _ =>
  }

  /** Without a runnable dub nothing else happens: whatever the subcommand,
      the program fails with the install hint. */
  lemma NoDubNoRun(cli: Cli, windows: bool, dc: Option<string>, files: set<string>, os: System)
    requires forall i :: 0 <= i < |Candidates(windows)| ==> !Live(os, Candidates(windows)[i])
    ensures RunOutcome(cli, windows, dc, files, os) == Failed(NotFoundMessage)
    ensures Terminate(RunOutcome(cli, windows, dc, files, os)) == Termination(1, "Error: " + NotFoundMessage + "\n")
  {
  }

  /** With no subcommand, cargo-dub runs `dub run`, passing on only the
      compiler named by `DC`. */
  lemma NoSubcommandRunsDubRun(windows: bool, dc: Option<string>, files: set<string>, os: System)
    requires Resolve(windows, os).Ok?
    ensures var dub := Resolve(windows, os).value;
      RunOutcome(Cli(None), windows, dc, files, os)
        == StatusOutcome(os(dub.path, ["run"] + Opt(CompilerFlag, dc)))
  {
    DefaultRunArgs(dc);
  }

  /** The shared options of the default run: at most the `DC` compiler. */
  lemma DefaultRunArgs(dc: Option<string>)
    ensures SharedArgs(DefaultOptions, dc) == Opt(CompilerFlag, dc)
  {
    var runs := SharedRuns(DefaultOptions, dc);
    ScalarRunsAre(DefaultOptions, dc);
    FlattenConcat(runs[..1], runs[1..]);
    assert runs[..1] + runs[1..] == runs;
    FlattenEmptyRuns(runs[1..]);
    FlattenStep(runs, 0);
    assert runs[..0] == [];
  }

  /** A child that ran ends cargo-dub with the child's exit code and no
      message; one that a signal ended gives 1. */
  lemma ExitCodePassedOn(cli: Cli, windows: bool, dc: Option<string>, files: set<string>, os: System)
    requires Resolve(windows, os).Ok? && Planned(Selected(cli.command), dc, files).Ok?
    ensures var status := os(Resolve(windows, os).value.path, Planned(Selected(cli.command), dc, files).value);
      status.Exited? ==>
        Terminate(RunOutcome(cli, windows, dc, files, os))
          == Termination(if status.code.Some? then status.code.value else 1, [])
  {
  }

  /** The executable is looked for before the manifest: a missing dub is
      reported even when `convert`'s source is missing too, and a missing
      source stops `convert` before dub is run. */
  lemma ConvertChecksManifestAfterDub(f: Format, windows: bool, dc: Option<string>, files: set<string>, os: System)
    requires ConvertSource(f) !in files
    ensures Resolve(windows, os).Err? ==>
      RunOutcome(Cli(Some(Direct(Convert(f)))), windows, dc, files, os) == Failed(NotFoundMessage)
    ensures Resolve(windows, os).Ok? ==>
      RunOutcome(Cli(Some(Direct(Convert(f)))), windows, dc, files, os)
        == Failed("Source file '" + ConvertSource(f) + "' not found")
  {
  }
}
