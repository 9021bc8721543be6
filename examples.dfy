/**
  The argument lists the unit tests of src/main.rs expect, derived from the
  specification functions, and a whole run against a system on which only
  `dub` answers.

  Unless an example says otherwise, `DC` is unset.
*/
module Examples {
  import opened Wrappers
  import opened Tokens
  import opened Request
  import opened Process
  import opened Resolver
  import opened SharedOptions
  import opened Subcommands
  import opened CargoDub

  /** Default options with only `--yes` set. */
  lemma OnlyYes()
    ensures SharedArgs(DefaultOptions.(yes := true), None) == ["--yes"]
  {
    SharedArgsPieces(DefaultOptions.(yes := true), None);
  }

  /** Default options with only `--force` set. */
  lemma OnlyForce()
    ensures SharedArgs(DefaultOptions.(force := true), None) == ["--force"]
  {
    SharedArgsPieces(DefaultOptions.(force := true), None);
  }

  /** `test_build_dub_args`: every kind of option at once. */
  lemma BuildDubArgsExample()
    ensures SharedArgs(DubOptions(Some("ldc2"), Some("release"), Some("test-config"), Some("x86_64"),
                                  true, true, true, false, true, ["ver1", "ver2"], ["debug1"], ["conf1"], true, false), None)
      == ["--compiler=ldc2", "--build=release", "--config=test-config", "--arch=x86_64",
          "--rdmd", "--temp-build", "--force", "--deep", "--yes",
          "--d-version=ver1", "--d-version=ver2", "--debug=debug1", "--override-config=conf1"]
  {
    var o := DubOptions(Some("ldc2"), Some("release"), Some("test-config"), Some("x86_64"),
                        true, true, true, false, true, ["ver1", "ver2"], ["debug1"], ["conf1"], true, false);
    SharedArgsPieces(o, None);
    assert CompilerFlag + "ldc2" == "--compiler=ldc2" && BuildFlag + "release" == "--build=release";
    assert ConfigFlag + "test-config" == "--config=test-config" && ArchFlag + "x86_64" == "--arch=x86_64";
    var versions := Each(DVersionFlag, o.dVersions);
    assert versions[0] == "--d-version=ver1" && versions[1] == "--d-version=ver2";
    assert Each(DebugFlag, o.debug)[0] == "--debug=debug1";
    assert Each(OverrideConfigFlag, o.overrideConfig)[0] == "--override-config=conf1";
  }

  /** `test_build_dub_args_with_env_dc`: `DC=dmd` and default options. */
  lemma EnvironmentCompilerExample()
    ensures SharedArgs(DefaultOptions, Some("dmd")) == ["--compiler=dmd"]
  {
    DefaultRunArgs(Some("dmd"));
    assert CompilerFlag + "dmd" == "--compiler=dmd";
  }

  /** `test_convert_format_file_missing` and `test_convert_format_file_exists`. */
  lemma ConvertExamples()
    ensures ConvertPlan(Json, {}) == Err("Source file 'dub.sdl' not found")
    ensures ConvertPlan(Json, {"dub.sdl"}) == Ok(["convert", "--format=json"])
  {
    assert "Source file '" + "dub.sdl" + "' not found" == "Source file 'dub.sdl' not found";
    assert "--format=" + "json" == "--format=json";
  }

  /** `test_execute_dub_command`: `run` with default options. */
  lemma RunExample()
    ensures DubArgs("run", DefaultOptions, None) == ["run"]
  {
    DefaultRunArgs(None);
  }

  /** Default options with only the compiler `ldc2` set. */
  lemma OnlyCompiler()
    ensures SharedArgs(DefaultOptions.(compiler := Some("ldc2")), None) == ["--compiler=ldc2"]
  {
    SharedArgsPieces(DefaultOptions.(compiler := Some("ldc2")), None);
    assert CompilerFlag + "ldc2" == "--compiler=ldc2";
  }

  /** `describe`'s own flags in `test_execute_describe`. */
  lemma DescribeFlagsExample()
    ensures DescribeOwnArgs(DescribeOptions(Some(["main-source-file", "libs"]), true, DefaultOptions))
      == ["--data=main-source-file", "--data=libs", "--data-list"]
  {
    DescribeOwnArgsAre(DescribeOptions(Some(["main-source-file", "libs"]), true, DefaultOptions));
    var data := Each(DataFlag, ["main-source-file", "libs"]);
    assert data[0] == "--data=main-source-file" && data[1] == "--data=libs";
  }

  /** `test_execute_describe`. */
  lemma DescribeExample()
    ensures DescribeArgs(DescribeOptions(Some(["main-source-file", "libs"]), true, DefaultOptions.(compiler := Some("ldc2"))), None)
      == ["describe", "--data=main-source-file", "--data=libs", "--data-list", "--compiler=ldc2"]
  {
    DescribeFlagsExample();
    OnlyCompiler();
  }

  /** `test_execute_add` and `test_execute_remove`. */
  lemma AddRemoveExamples()
    ensures AddRemoveArgs("add", AddRemoveOptions(["vibelog@1.0.0", "libdparse"], DefaultOptions.(yes := true)), None)
      == ["add", "vibelog@1.0.0", "libdparse", "--yes"]
    ensures AddRemoveArgs("remove", AddRemoveOptions(["vibelog@1.0.0"], DefaultOptions.(force := true)), None)
      == ["remove", "vibelog@1.0.0", "--force"]
  {
    OnlyYes();
    OnlyForce();
  }

  /** `test_execute_fetch`. */
  lemma FetchExample()
    ensures FetchArgs(FetchOptions("vibelog@1.0.0", Some("local"), DefaultOptions.(yes := true)), None)
      == ["fetch", "vibelog@1.0.0", "--cache=local", "--yes"]
  {
    OnlyYes();
    assert CacheFlag + "local" == "--cache=local";
  }

  /** `test_execute_init`: a full request, and the minimal one. */
  lemma InitExamples()
    ensures InitArgs(InitOptions(Some("my_project"), ["vibelog@1.0.0"], VibeD, true, DefaultOptions.(yes := true)), None)
      == ["init", "my_project", "vibelog@1.0.0", "--type=vibe.d", "--non-interactive", "--yes"]
    ensures InitArgs(InitOptions(None, [], Minimal, false, DefaultOptions), None) == ["init", "--type=minimal"]
  {
    OnlyYes();
    DefaultRunArgs(None);
    assert TypeFlag + "vibe.d" == "--type=vibe.d" && TypeFlag + "minimal" == "--type=minimal";
  }

  /** `test_execute_clean`. */
  lemma CleanExample()
    ensures CleanArgs(CleanOptions(Some("my_package"), false, DefaultOptions.(force := true)), None)
      == ["clean", "my_package", "--force"]
  {
    OnlyForce();
  }

  /** The lint flags of `test_execute_lint`. */
  lemma LintFlagsExample()
    ensures LintOwnArgs(LintOptions(Some("my_package@1.0.0"), true, true, Some("custom"), true, Some("json"),
                                    Some("report.json"), Some(["src"]), Some("dscanner.ini"), DefaultOptions))
      == ["--syntax-check", "--style-check", "--error-format=custom", "--report",
          "--report-format=json", "--report-file=report.json", "--import-paths=src",
          "--dscanner-config=dscanner.ini"]
  {
    var o := LintOptions(Some("my_package@1.0.0"), true, true, Some("custom"), true, Some("json"),
                         Some("report.json"), Some(["src"]), Some("dscanner.ini"), DefaultOptions);
    LintOwnArgsAre(o);
    assert Each(ImportPathsFlag, ["src"])[0] == "--import-paths=src";
    assert ErrorFormatFlag + "custom" == "--error-format=custom" && ReportFormatFlag + "json" == "--report-format=json";
    assert ReportFileFlag + "report.json" == "--report-file=report.json";
    assert DscannerConfigFlag + "dscanner.ini" == "--dscanner-config=dscanner.ini";
  }

  /** `test_execute_lint`: every lint flag at once. */
  lemma LintExample()
    ensures LintArgs(LintOptions(Some("my_package@1.0.0"), true, true, Some("custom"), true, Some("json"),
                                 Some("report.json"), Some(["src"]), Some("dscanner.ini"), DefaultOptions.(yes := true)), None)
      == ["lint", "my_package@1.0.0", "--syntax-check", "--style-check", "--error-format=custom", "--report",
          "--report-format=json", "--report-file=report.json", "--import-paths=src",
          "--dscanner-config=dscanner.ini", "--yes"]
  {
    LintFlagsExample();
    OnlyYes();
  }

  /** A system on which only `dub` answers, and every run of it exits with 0. */
  function OnlyDub(program: string, args: seq<string>): Status
  {
    if program == "dub" then Exited(Some(0)) else SpawnError(NotFound)
  }

  /** On Windows `dub.exe` does not answer there, so `dub` is used. */
  lemma ResolveExample()
    ensures Resolve(true, OnlyDub) == Ok(DubExecutable("dub"))
    ensures Resolve(false, OnlyDub) == Ok(DubExecutable("dub"))
  {
    WindowsPrefersExe(OnlyDub);
    OtherPlatformsTryDubOnly(OnlyDub);
  }

  /** Bare `cargo-dub`, and `cargo dub` (which runs `cargo-dub dub`), with no
      subcommand run `dub run` and exit with its code. */
  lemma DefaultRunExample()
    ensures RunOutcome(Cli(None), true, None, {}, OnlyDub) == Exit(0)
    ensures RunOutcome(Cli(Some(Dub(None))), true, None, {}, OnlyDub) == Exit(0)
  {
    ResolveExample();
  }

  /** `cargo-dub convert --format sdl` without a `dub.json` reports the missing manifest. */
  lemma MissingManifestExample()
    ensures RunOutcome(Cli(Some(Direct(Convert(Sdl)))), false, None, {}, OnlyDub)
      == Failed("Source file 'dub.json' not found")
  {
    ConvertChecksManifestAfterDub(Sdl, false, None, {}, OnlyDub);
    ResolveExample();
    assert "Source file '" + "dub.json" + "' not found" == "Source file 'dub.json' not found";
  }
}
