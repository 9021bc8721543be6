/**
  The typed request cargo-dub hands to its core once the command line has
  been parsed: one variant per subcommand, each carrying only its own
  fields and, where it applies, the shared option set.
*/
module Request {
  import opened Wrappers

  /** Options shared by every subcommand that builds (src/main.rs `DubOptions`).
      Fields are in the order the source struct declares them. */
  datatype DubOptions = DubOptions(
    compiler: Option<string>,
    build: Option<string>,
    config: Option<string>,
    arch: Option<string>,
    rdmd: bool,
    tempBuild: bool,
    force: bool,
    nodeps: bool,
    deep: bool,
    dVersions: seq<string>,
    debug: seq<string>,
    overrideConfig: seq<string>,
    yes: bool,
    nonInteractive: bool)

  /** `DubOptions::default()`: every scalar absent, every switch off, every list empty. */
  const DefaultOptions: DubOptions :=
    DubOptions(None, None, None, None, false, false, false, false, false, [], [], [], false, false)

  /** Target manifest format of `convert`. */
  datatype Format = Json | Sdl

  /** Package template of `init`. */
  datatype ProjectType = Minimal | VibeD | Deimos | Custom

  datatype DescribeOptions = DescribeOptions(data: Option<seq<string>>, dataList: bool, options: DubOptions)

  datatype AddRemoveOptions = AddRemoveOptions(packages: seq<string>, options: DubOptions)

  datatype FetchOptions = FetchOptions(package: string, cache: Option<string>, options: DubOptions)

  datatype InitOptions = InitOptions(
    directory: Option<string>,
    dependencies: seq<string>,
    projectType: ProjectType,
    nonInteractive: bool,
    options: DubOptions)

  datatype CleanOptions = CleanOptions(package: Option<string>, allPackages: bool, options: DubOptions)

  datatype LintOptions = LintOptions(
    package: Option<string>,
    syntaxCheck: bool,
    styleCheck: bool,
    errorFormat: Option<string>,
    report: bool,
    reportFormat: Option<string>,
    reportFile: Option<string>,
    importPaths: Option<seq<string>>,
    dscannerConfig: Option<string>,
    options: DubOptions)

  /** One subcommand with its options (src/main.rs `DubCommands`). */
  datatype DubCommands =
    | Run(runOptions: DubOptions)
    | Build(buildOptions: DubOptions)
    | Convert(format: Format)
    | Raw(args: seq<string>)
    | Describe(describeOptions: DescribeOptions)
    | Add(addOptions: AddRemoveOptions)
    | Remove(removeOptions: AddRemoveOptions)
    | Fetch(fetchOptions: FetchOptions)
    | Init(initOptions: InitOptions)
    | Clean(cleanOptions: CleanOptions)
    | Lint(lintOptions: LintOptions)

  /** Either `cargo-dub dub <subcommand>`, the hidden `dub` wrapper that
      `cargo dub <subcommand>` runs, or `cargo-dub <subcommand>` directly. */
  datatype Commands = Dub(cmd: Option<DubCommands>) | Direct(direct: DubCommands)

  datatype Cli = Cli(command: Option<Commands>)
}
