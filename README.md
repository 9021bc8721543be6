# cargo-dub, modelled in Dafny

cargo-dub is a Cargo subcommand that drives DUB, the D language build tool.
You can invoke it as `cargo dub <cmd>` (Cargo then runs `cargo-dub dub <cmd>`) or directly as `cargo-dub <cmd>`. It proceeds in five steps:

1. It finds a runnable `dub` executable.
2. It picks the subcommand: `run` with default options when none is given.
3. It turns the typed request into the argument list of a `dub` child process.
4. It runs that process.
5. It ends with the child's exit code, or with `Error: <message>` and exit code 1.

This project models that core, all of which is in `src/main.rs`, and proves what it promises.

- **`Request`.** The typed request handed over by the command-line parser:
  - one variant per subcommand (`DubCommands`);
  - the shared option set `DubOptions`;
  - each subcommand's own options.
- **`Process`.** How the program sees the operating system.
  - `Command` is a class whose argument list `Arg` and `Args` extend in place.
  - The operating system is a function parameter `os` from a program and its arguments to a `Status`: exited with or without a code, or could not be started, by error kind.
  - `StatusOutcome` is the `execute_command` table. `Terminate` is `main`.
- **`Resolver`.** `DubExecutable::new`: it probes the platform's candidate names with `--version` and picks the first that succeeds.
- **`SharedOptions`.** `build_dub_args`:
  - the specification function `SharedArgs`, and the methods that append it to a `Command` step by step;
  - the order, presence and count properties;
  - the `DC` fallback;
  - a decoder `DecodeShared` that reads the options back (round trip).
- **`Subcommands`.** The argument list of every subcommand as a specification function, and a layout lemma for each that reads the list back.
- **`CargoDub`.**
  - The `execute_*` functions as methods, each proved to run exactly its specification's argument list.
  - `run` and `main`, with `RunOutcome` as the specification of a whole run.
  - Lemmas about dispatch, failure order and exit codes.
- **`Examples`.** The argument lists and outcomes the unit tests of `src/main.rs` expect, derived from the specification functions. Three whole-run examples sit alongside them and come from no unit test: `ResolveExample`, `DefaultRunExample` and `MissingManifestExample`.
- **`Tokens`.** Generic facts about flag tables, and about runs of tokens in table order.
- **`Wrappers`.** `Option` and `Result`.

Three environment inputs are parameters, and the operating system is the `os` function:

| Input | Parameter |
|---|---|
| The `DC` environment variable | `dc: Option<string>` |
| The files present in the working directory | `files: set<string>` |
| Whether the platform is Windows | `windows: bool` |

## Model

| member | source | states |
|---|---|---|
| Process.Command.constructor | src/main.rs:218-227 | A fresh command for a program has no arguments yet |
| Process.Command.Arg | src/main.rs:263 | `cmd.arg(a)` appends exactly `a` to the argument list |
| Process.Command.Args | src/main.rs:270 | `cmd.args(xs)` appends `xs`, in order, to the argument list |
| Process.SpawnErrorMessage | src/main.rs:440-446 | The message for each start-failure kind: not found, permission denied, would block, and any other kind |
| Process.Success | src/main.rs:207 | `status.success()`: the process exited with code 0 |
| Process.StatusOutcome | src/main.rs:437-448 | A child that ran gives its exit code, or 1 when it had none; only a start failure gives an error, and that error is the message for its kind |
| Process.SpawnErrorMessagesDistinct | src/main.rs:440-446 | The four start-failure kinds map to four different messages |
| Process.ExecuteCommand | src/main.rs:437-448 | The outcome is that of the status the OS reports for exactly this program and argument list |
| Process.Terminate | src/main.rs:229-234 | An error ends the program with 1 and the line `Error: <message>` followed by a newline; an exit code is passed on unchanged with nothing printed; code 0 happens only when the child exited with 0 |
| Resolver.Candidates | src/main.rs:196-200 | The names tried end with `dub`, and `dub.exe` is among them exactly on Windows |
| Resolver.Live | src/main.rs:202-208 | A candidate answers when `<candidate> --version` exits with 0; a probe that cannot start does not answer |
| Resolver.FirstLive | src/main.rs:201-214 | Returns the first candidate whose probe succeeds (all earlier ones fail), or none when every probe fails |
| Resolver.Resolve | src/main.rs:195-216 | Succeeds exactly when some candidate answers, with a live candidate of the platform's list; otherwise fails with the install hint |
| Resolver.NewDubExecutable | src/main.rs:195-216 | The probing loop, with its early return, gives exactly `Resolve` |
| Resolver.NewCommand | src/main.rs:218-227 | The command runs the resolved path and starts with no arguments |
| Resolver.WindowsPrefersExe | src/main.rs:196-197 | On Windows, `dub.exe` is chosen when it answers, and `dub` only when it does not |
| Resolver.OtherPlatformsTryDubOnly | src/main.rs:198-199 | Elsewhere, `dub` is chosen if it answers, or else resolution fails |
| Resolver.NotFoundNamesInstallSite | src/main.rs:215 | The resolution error names https://dub.pm |
| SharedOptions.EffectiveCompiler | src/main.rs:400 | The compiler passed is the explicit one, else the value of `DC`; its properties are `CompilerFallback` |
| SharedOptions.SharedArgs | src/main.rs:399-435 | The tokens `build_dub_args` appends; its properties are `SharedArgsInFlagOrder`, `SharedArgsOfFlag`, `SharedArgsSingleValued` and `SharedArgsRoundTrip` |
| SharedOptions.SharedFlagsWellFormed | src/main.rs:399-435 | The fourteen shared flags are distinct: scalars and lists end in `=`, switches have no `=` |
| SharedOptions.Fields | src/main.rs:399-435 | One field per shared flag, in table order, of the kind that flag takes |
| SharedOptions.AssembleFields | src/main.rs:399-435 | The fields hold every option, with the compiler actually passed |
| SharedOptions.BuildDubArgs | src/main.rs:399-435 | `build_dub_args` appends exactly `SharedArgs(opts, dc)` and leaves the earlier arguments as they were |
| SharedOptions.AppendScalars | src/main.rs:400-411 | Appends the compiler (falling back to `DC`), build, config and arch runs, in that order |
| SharedOptions.SwitchTable | src/main.rs:412-420 | The seven switches paired with their flags, in the order of the source's array (deep before nodeps); `SwitchArgs` and `AppendEnabled` state what is appended from it |
| SharedOptions.AppendSwitches | src/main.rs:412-424 | The loop over the switch table appends the seven switch runs in table order |
| SharedOptions.AppendEnabled | src/main.rs:412-424 | The loop over a switch table appends, entry by entry, the flag of each enabled switch and nothing for a disabled one |
| SharedOptions.AppendLists | src/main.rs:425-433 | Appends the d-version, debug and override-config runs, in that order |
| SharedOptions.AppendListRuns | src/main.rs:425-433 | The three list loops append the list runs that follow the switches |
| SharedOptions.AppendOpt | src/main.rs:403-405 | An absent value appends nothing; a present one appends one `name=value` token |
| SharedOptions.AppendEach | src/main.rs:425-427 | The loop appends one `name=element` token per element, in list order |
| SharedOptions.SharedArgsInFlagOrder | src/main.rs:399-435 | Every token belongs to a shared flag, and the flags occur in the fixed order: scalars, then switches (deep before nodeps), then lists |
| SharedOptions.SharedArgsOfFlag | src/main.rs:399-435 | The tokens of each flag are exactly what its option asks for: none for an absent scalar or a false switch, one per list element in order |
| SharedOptions.SharedArgsSingleValued | src/main.rs:400-424 | No scalar or switch is passed more than once |
| SharedOptions.CompilerFallback | src/main.rs:400-402 | An explicit compiler wins over `DC`; `DC` is used only when the field is absent; with neither there is no `--compiler=` token |
| SharedOptions.DefaultOptionsEncodeNothing | src/main.rs:399-435 | Default options with `DC` unset add no arguments |
| SharedOptions.Read | src/main.rs:399-435 | Reading a flag's values gives a field of the kind that flag takes |
| SharedOptions.ReadRun | src/main.rs:399-435 | Reading back one flag's own tokens gives its field |
| SharedOptions.SharedArgsRoundTrip | src/main.rs:399-435 | Decoding the encoding gives back the options, with the compiler that was passed: no option is lost, and list values keep their order and count (order across flags and single occurrence are `SharedArgsInFlagOrder` and `SharedArgsSingleValued`) |
| SharedOptions.DecodeIgnoresOtherFlags | src/main.rs:399-435 | Tokens of non-shared flags placed before the shared ones do not change what is read back |
| SharedOptions.DecodeAfterNonInteractive | src/main.rs:343-345 | A `--non-interactive` placed in front sets that switch and changes no other option |
| SharedOptions.SharedArgsFlags | src/main.rs:399-435 | Every token of the encoding is a flag of the shared table |
| SharedOptions.ScalarArgs | src/main.rs:400-411 | The first four runs are the compiler, build, config and arch tokens |
| SharedOptions.SwitchArgs | src/main.rs:412-424 | Runs 4 to 10 are rdmd, temp-build, force, deep, nodeps, yes and non-interactive |
| SharedOptions.ListArgs | src/main.rs:425-433 | The last three runs are the d-version, debug and override-config tokens |
| SharedOptions.SharedArgsSpelledOut | src/main.rs:399-435 | The encoding is the scalars, then the switches, then the lists |
| SharedOptions.SharedArgsPieces | src/main.rs:399-435 | The encoding, flag by flag: compiler, build, config, arch, the seven switches in source order, then d-versions, debug versions and override configs |
| Subcommands.SharedTail | src/main.rs:399-435 | The shared options read back intact after any tokens of non-shared flags |
| Subcommands.DubArgs | src/main.rs:261-266 | The specification of `execute_dub`'s list; its properties are `DubArgsLayout` |
| Subcommands.DubArgsLayout | src/main.rs:261-266 | `run` and `build` put the subcommand first, then exactly `SharedArgs` and nothing else, which reads back intact |
| Subcommands.AddRemoveArgs | src/main.rs:304-314 | The specification of `execute_add_remove`'s list; its properties are `AddRemoveLayout` |
| Subcommands.AddRemoveLayout | src/main.rs:304-314 | `add` and `remove` put the subcommand, then the packages in order, then exactly `SharedArgs` and nothing else, which reads back intact |
| Subcommands.OwnFlagsWellFormed | src/main.rs:289-397 | No flag of a subcommand's own is a shared flag |
| Subcommands.DescribeOwnArgs | src/main.rs:292-299 | `describe`'s own tokens; `DescribeOwnLayout` and `CargoDub.DescribeOwnArgsAre` state what they are |
| Subcommands.DescribeArgs | src/main.rs:289-302 | The specification of `execute_describe`'s list; its properties are `DescribeOwnLayout` and `DescribeLayout` |
| Subcommands.DescribeOwnLayout | src/main.rs:289-302 | The `--data=` tokens come before `--data-list` and carry the requested fields in order; `--data-list` is present exactly when asked for |
| Subcommands.DescribeLayout | src/main.rs:289-302 | `describe` comes first, then exactly its own tokens and `SharedArgs`, and the shared options read back intact |
| Subcommands.FetchArgs | src/main.rs:316-325 | The specification of `execute_fetch`'s list; its properties are `FetchLayout` |
| Subcommands.FetchLayout | src/main.rs:316-325 | `fetch` and the package come first, then exactly the `--cache=` token when a cache is given (none otherwise) and `SharedArgs`, which read back intact |
| Subcommands.TypeName | src/main.rs:336-341 | The `--type=` name of each project template; its property is `TypeNameInjective` |
| Subcommands.InitArgs | src/main.rs:327-348 | The specification of `execute_init`'s list; its properties are `InitLayout`, `InitSharedTail` and `InitNonInteractiveTwice` |
| Subcommands.TypeNameInjective | src/main.rs:335-340 | Different project templates are passed as different `--type=` names |
| Subcommands.InitLayout | src/main.rs:327-348 | `init` comes first, then the directory and dependencies in order, then exactly one `--type=` token, `--non-interactive` when `init` asks for it, and `SharedArgs` |
| Subcommands.InitSharedTail | src/main.rs:327-348 | From the `--type=` token on, the shared options read back, with non-interactive set when either `init`'s switch or the shared one is set |
| Subcommands.DecodeInitTail | src/main.rs:333-346 | The `--type=` token is not a shared flag, and `init`'s own `--non-interactive` reads as the shared switch |
| Subcommands.SharedNonInteractive | src/main.rs:412-424 | A set shared `--non-interactive` is passed exactly once among the shared options |
| Subcommands.InitNonInteractiveTwice | src/main.rs:343-346 | With both switches set, `--non-interactive` is passed by `init` and again among the shared options |
| Subcommands.NotShared | src/main.rs:399-435 | A token of a non-shared flag never appears among the shared options |
| Subcommands.CleanArgs | src/main.rs:350-361 | The specification of `execute_clean`'s list; its properties are `CleanLayout` |
| Subcommands.CleanLayout | src/main.rs:350-361 | `clean` and the optional package come first, then exactly `--all-packages` when asked for and `SharedArgs`; the shared options read back intact |
| Subcommands.LintOwnArgs | src/main.rs:369-394 | `lint`'s own tokens; `LintFlagOrder`, `LintArgsOfFlag` and `CargoDub.LintOwnArgsAre` state what they are |
| Subcommands.LintArgs | src/main.rs:363-397 | The specification of `execute_lint`'s list; its properties are `LintFlagOrder`, `LintArgsOfFlag` and `LintLayout` |
| Subcommands.LintFlagOrder | src/main.rs:369-394 | `lint`'s own flags come in the fixed order of the source |
| Subcommands.LintArgsOfFlag | src/main.rs:369-394 | The tokens of each lint flag are exactly what its option asks for |
| Subcommands.LintLayout | src/main.rs:363-397 | `lint` and the optional package come first, then exactly the lint flags' tokens and `SharedArgs`, and the shared options read back intact |
| Subcommands.ConvertSource | src/main.rs:275-278 | The manifest `convert` reads for each target format; `ConvertReadsOtherManifest` states that it is the other format's |
| Subcommands.ConvertTarget | src/main.rs:275-278 | The `--format=` value for each target format; `ConvertReadsOtherManifest` and `ConvertPlanCases` state its use |
| Subcommands.ConvertPlan | src/main.rs:274-283 | What `convert_format` runs or the error it returns; its properties are `ConvertReadsOtherManifest` and `ConvertPlanCases` |
| Subcommands.ConvertReadsOtherManifest | src/main.rs:275-278 | Converting to a format requires the manifest of the other format, not the one being written |
| Subcommands.ConvertPlanCases | src/main.rs:274-287 | `convert` fails exactly when the source manifest is missing, and the error names it; otherwise it runs exactly `convert` and the one token `--format=<target>` |
| CargoDub.ExecuteDub | src/main.rs:261-266 | Runs dub with exactly `[sub] + SharedArgs` |
| CargoDub.ExecuteRaw | src/main.rs:268-272 | Runs dub with the user's arguments, unchanged and in order |
| CargoDub.ConvertFormat | src/main.rs:274-287 | Fails without running anything when the source manifest is missing; otherwise runs exactly `["convert", "--format=<target>"]` |
| CargoDub.DescribeOwnArgsAre | src/main.rs:292-299 | `describe`'s own tokens are one `--data=` per field, then `--data-list` when set |
| CargoDub.ExecuteDescribe | src/main.rs:289-302 | Runs dub with exactly `DescribeArgs` |
| CargoDub.ExecuteAddRemove | src/main.rs:304-314 | Runs dub with exactly `AddRemoveArgs` |
| CargoDub.ExecuteFetch | src/main.rs:316-325 | Runs dub with exactly `FetchArgs` |
| CargoDub.ExecuteInit | src/main.rs:327-348 | Runs dub with exactly `InitArgs` |
| CargoDub.ExecuteClean | src/main.rs:350-361 | Runs dub with exactly `CleanArgs` |
| CargoDub.LintOwnArgsAre | src/main.rs:369-394 | `lint`'s own tokens are the check flags followed by the report flags |
| CargoDub.ExecuteLint | src/main.rs:363-397 | Runs dub with exactly `LintArgs` |
| CargoDub.AppendLintFlags | src/main.rs:369-394 | Appends exactly `lint`'s own tokens |
| CargoDub.AppendLintChecks | src/main.rs:369-380 | Appends syntax-check, style-check, error-format and report, in that order |
| CargoDub.AppendLintReport | src/main.rs:381-394 | Appends report-format, report-file, one token per import path, and dscanner-config, in that order |
| CargoDub.AppendSwitch | src/main.rs:297-299 | A false switch appends nothing; a true one appends its flag |
| CargoDub.Selected | src/main.rs:240-244 | The subcommand dispatched on, whichever way it was spelt, with the constant `DefaultCommand` (`run` with default options) when none is given; its properties are `SelectedSpellings` |
| CargoDub.Planned | src/main.rs:245-258 | The argument list each subcommand passes to dub, or `convert`'s error; its properties are `PlannedCases` and the `Execute*` methods |
| CargoDub.PlanOutcome | src/main.rs:280-286 | A plan that failed before running (convert's missing manifest) is that error; otherwise the outcome is `execute_command` of the planned list; `ExecuteSelected` and `ConvertChecksManifestAfterDub` state its use |
| CargoDub.RunOutcome | src/main.rs:236-259 | The outcome of a whole run: resolution, then the selected subcommand's plan; its properties are `NoDubNoRun`, `NoSubcommandRunsDubRun`, `ExitCodePassedOn` and `ConvertChecksManifestAfterDub` |
| CargoDub.RunCargoDub | src/main.rs:236-259 | `run` ends with exactly `RunOutcome`: resolution first, then the selected subcommand |
| CargoDub.ExecuteSelected | src/main.rs:245-258 | Each subcommand goes to its `execute_*` function, and the result is the outcome of its plan |
| CargoDub.CargoDubMain | src/main.rs:229-234 | The program ends with `Terminate` of the run's outcome |
| CargoDub.SelectedSpellings | src/main.rs:239-243 | `cargo-dub dub CMD` (what `cargo dub CMD` runs) and `cargo-dub CMD` select the same subcommand; with none given, both select `run` with default options |
| CargoDub.PlannedCases | src/main.rs:245-258 | Only `convert` can fail before running dub, and only for a missing manifest; every other plan starts with its subcommand's name; `raw` passes its arguments unchanged |
| CargoDub.NoDubNoRun | src/main.rs:238 | When no candidate answers, every subcommand ends with exit code 1 and the install hint |
| CargoDub.NoSubcommandRunsDubRun | src/main.rs:241-246 | With no subcommand, dub is run as `run`, passing on only the compiler named by `DC` |
| CargoDub.DefaultRunArgs | src/main.rs:399-435 | Default options encode to at most the `DC` compiler |
| CargoDub.ExitCodePassedOn | src/main.rs:437-439 | A child that ran ends cargo-dub with the child's exit code, or 1 without one, and prints nothing |
| CargoDub.ConvertChecksManifestAfterDub | src/main.rs:238 | A missing dub is reported before a missing manifest, and a missing manifest stops `convert` before dub runs |
| Examples.OnlyYes | src/main.rs:412-424 | Default options with `--yes` set encode to `["--yes"]` |
| Examples.OnlyForce | src/main.rs:412-424 | Default options with `--force` set encode to `["--force"]` |
| Examples.OnlyCompiler | src/main.rs:400-402 | Default options with compiler `ldc2` encode to `["--compiler=ldc2"]` |
| Examples.BuildDubArgsExample | src/main.rs:481-525 | The full option set of `test_build_dub_args` encodes to the tokens that test expects |
| Examples.EnvironmentCompilerExample | src/main.rs:528-541 | `DC=dmd` with default options gives `["--compiler=dmd"]` |
| Examples.ConvertExamples | src/main.rs:544-571 | `convert --format json` fails naming `dub.sdl` when it is missing, and otherwise runs `["convert", "--format=json"]` |
| Examples.RunExample | src/main.rs:574-587 | `run` with default options is exactly `["run"]` |
| Examples.DescribeFlagsExample | src/main.rs:590-627 | `describe`'s own tokens in the test's request |
| Examples.DescribeExample | src/main.rs:590-627 | The full `describe` argument list of the test |
| Examples.AddRemoveExamples | src/main.rs:630-673 | The `add` and `remove` argument lists of the tests |
| Examples.FetchExample | src/main.rs:676-703 | The `fetch` argument list of the test |
| Examples.InitExamples | src/main.rs:706-789 | The full `init` request of the test, and the minimal one giving `["init", "--type=minimal"]` |
| Examples.CleanExample | src/main.rs:792-818 | The `clean` argument list of the test |
| Examples.LintFlagsExample | src/main.rs:821-892 | `lint`'s own tokens in the test's request |
| Examples.LintExample | src/main.rs:821-892 | The full `lint` argument list of the test |
| Examples.ResolveExample | src/main.rs:195-216 | When only `dub` answers, both platforms resolve to `dub` |
| Examples.DefaultRunExample | src/main.rs:229-259 | Bare `cargo-dub`, and `cargo dub` (that is, `cargo-dub dub`), with no subcommand, where only `dub` answers and it exits with 0, end with exit code 0 |
| Examples.MissingManifestExample | src/main.rs:274-283 | `cargo-dub convert --format sdl` without `dub.json` fails with `Source file 'dub.json' not found` |

## Left out

- Command-line parsing (`Cli::parse` and the clap derive attributes, src/main.rs:10-182) is library code. The model starts from the typed request that parsing produces. So it does not model:
  - the `,` delimiter of `--data`;
  - that `add`, `remove` and `fetch` require a package;
  - the default `--type` of `init`;
  - short flag spellings.
- Stream wiring (`Stdio::inherit` for the child, `Stdio::null` for the probe) is OS I/O and is not modelled.
- Spawning a process and waiting for it is not modelled either. The probe and the child run are both the `os` function parameter.
- `os` is a pure function of the program and its arguments. So a run of exactly `["--version"]` (`raw --version`) returns the status of the probe for the same program, and a dub that disappears between the probe and that run cannot be represented. No property depends on this.
- Three environment inputs are parameters instead:
  - reading `DC` (`env::var`);
  - checking whether a manifest exists (`Path::exists`), modelled as the set `files` of existing file names;
  - `cfg!(windows)`.
- `std::process::exit` and `eprintln!` are modelled as the returned `Termination` value: an exit code and the line written to standard error. Nothing is printed and the process does not end.
- The `DubCommand` trait and the test-only `MockDubExecutable` exist only to redirect I/O in the tests. The model calls the resolved executable directly.
- Process.StatusOutcome: the exit code is an unbounded `int`. It does not model that the code is an `i32`.
- SharedOptions.BuildDubArgs: `build_dub_args` returns a `Result` that is always `Ok`. The model's method has no result, and its callers have no error path for it.
