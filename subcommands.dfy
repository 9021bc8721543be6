/**
  The argument lists of the subcommands (src/main.rs `execute_dub`,
  `execute_raw`, `convert_format`, `execute_describe`, `execute_add_remove`,
  `execute_fetch`, `execute_init`, `execute_clean`, `execute_lint`): the
  subcommand name first, then its positional arguments and its own flags,
  then the shared options.

  Each layout lemma reads the list back: the name, the positionals, and the
  shared options decoded from everything after the positionals — which
  shows that no flag of a subcommand is mistaken for a shared one, except
  `init`'s own `--non-interactive`, which is the shared switch itself.
*/
module Subcommands {
  import opened Wrappers
  import opened Tokens
  import opened Request
  import opened SharedOptions

  /** Reading the shared options after tokens of other flags gives back the
      options, with the compiler actually passed. */
  lemma SharedTail(own: seq<string>, o: DubOptions, dc: Option<string>)
    requires forall i :: 0 <= i < |own| ==> FlagName(own[i]) !in SharedFlags
    ensures DecodeShared(own + SharedArgs(o, dc)) == o.(compiler := EffectiveCompiler(o, dc))
  {
    DecodeIgnoresOtherFlags(own, SharedArgs(o, dc));
    SharedArgsRoundTrip(o, dc);
  }

  // ---------------------------------------------------------------------
  // run, build, add, remove, raw

  /** `dub run|build [shared options]`. */
  function DubArgs(sub: string, opts: DubOptions, dc: Option<string>): seq<string>
  {
    [sub] + SharedArgs(opts, dc)
  }

  lemma DubArgsLayout(sub: string, opts: DubOptions, dc: Option<string>)
    ensures var args := DubArgs(sub, opts, dc);
      && 0 < |args| && args[0] == sub && args[1..] == SharedArgs(opts, dc)
      && DecodeShared(args[1..]) == opts.(compiler := EffectiveCompiler(opts, dc))
  {
    var args := DubArgs(sub, opts, dc);
    assert args[1..] == [] + SharedArgs(opts, dc);
    SharedTail([], opts, dc);
  }

  /** `dub add|remove PACKAGE... [shared options]`. */
  function AddRemoveArgs(sub: string, o: AddRemoveOptions, dc: Option<string>): seq<string>
  {
    [sub] + o.packages + SharedArgs(o.options, dc)
  }

  lemma AddRemoveLayout(sub: string, o: AddRemoveOptions, dc: Option<string>)
    ensures var args, n := AddRemoveArgs(sub, o, dc), |o.packages|;
      && n < |args| && args[0] == sub && args[1..1 + n] == o.packages
      && args[1 + n..] == SharedArgs(o.options, dc)
      && DecodeShared(args[1 + n..]) == o.options.(compiler := EffectiveCompiler(o.options, dc))
  {
    var args, n := AddRemoveArgs(sub, o, dc), |o.packages|;
    assert args[1..1 + n] == o.packages;
    assert args[1 + n..] == [] + SharedArgs(o.options, dc);
    SharedTail([], o.options, dc);
  }

  // ---------------------------------------------------------------------
  // The flags a subcommand adds of its own

  const DataFlag := "--data="
  const DataListFlag := "--data-list"
  const CacheFlag := "--cache="
  const TypeFlag := "--type="
  const AllPackagesFlag := "--all-packages"
  const SyntaxCheckFlag := "--syntax-check"
  const StyleCheckFlag := "--style-check"
  const ErrorFormatFlag := "--error-format="
  const ReportFlag := "--report"
  const ReportFormatFlag := "--report-format="
  const ReportFileFlag := "--report-file="
  const ImportPathsFlag := "--import-paths="
  const DscannerConfigFlag := "--dscanner-config="

  /** `describe`'s flags, in the order they are emitted. */
  const DescribeFlags: seq<string> := [DataFlag, DataListFlag]

  /** `lint`'s flags, in the order they are emitted. */
  const LintFlags: seq<string> := [
    SyntaxCheckFlag, StyleCheckFlag, ErrorFormatFlag, ReportFlag,
    ReportFormatFlag, ReportFileFlag, ImportPathsFlag, DscannerConfigFlag]

  /** Valued flags end in their only '=', switches have none, and none of
      them is a shared flag. */
  lemma OwnFlagsWellFormed()
    ensures ValuedFlag(CacheFlag) && ValuedFlag(TypeFlag) && NoEquals(AllPackagesFlag)
    ensures CacheFlag !in SharedFlags && TypeFlag !in SharedFlags && AllPackagesFlag !in SharedFlags
    ensures forall k :: 0 <= k < |DescribeFlags| ==> DescribeFlags[k] !in SharedFlags
    ensures forall k :: 0 <= k < |LintFlags| ==> LintFlags[k] !in SharedFlags
  {
  }

  // ---------------------------------------------------------------------
  // describe

  /** One `--data=` per requested field, then `--data-list`. */
  function DescribeFields(o: DescribeOptions): seq<Field>
  {
    [List(if o.data.Some? then o.data.value else []), Toggle(o.dataList)]
  }

  function DescribeOwnArgs(o: DescribeOptions): seq<string>
  {
    Flatten(RunsOf(DescribeFlags, DescribeFields(o)))
  }

  /** `dub describe [--data=D]... [--data-list] [shared options]`. */
  function DescribeArgs(o: DescribeOptions, dc: Option<string>): seq<string>
  {
    ["describe"] + DescribeOwnArgs(o) + SharedArgs(o.options, dc)
  }

  lemma DescribeTableWellFormed(o: DescribeOptions)
    ensures WellFormedTable(DescribeFlags, DescribeFields(o))
  {
  }

  /** The `--data=` tokens come before `--data-list`; they carry the
      requested fields in order, and `--data-list` is there exactly when asked for. */
  lemma DescribeOwnLayout(o: DescribeOptions)
    ensures Segment(DescribeOwnArgs(o), RankIn(DescribeFlags), 0, 1)
    ensures Values(Picked(DescribeOwnArgs(o), RankIn(DescribeFlags), 0)) == if o.data.Some? then o.data.value else []
    ensures Picked(DescribeOwnArgs(o), RankIn(DescribeFlags), 1) == (if o.dataList then [DataListFlag] else [])
  {
    var fs := DescribeFields(o);
    DescribeTableWellFormed(o);
    RunsInOrder(DescribeFlags, fs);
    PickedOfRuns(DescribeFlags, fs, 0);
    PickedOfRuns(DescribeFlags, fs, 1);
    ValuesOfEach(DataFlag, fs[0].values);
  }

  lemma DescribeLayout(o: DescribeOptions, dc: Option<string>)
    ensures var args := DescribeArgs(o, dc);
      && 0 < |args| && args[0] == "describe"
      && args[1..] == DescribeOwnArgs(o) + SharedArgs(o.options, dc)
      && DecodeShared(args[1..]) == o.options.(compiler := EffectiveCompiler(o.options, dc))
  {
    var args, own := DescribeArgs(o, dc), DescribeOwnArgs(o);
    assert args[1..] == own + SharedArgs(o.options, dc);
    DescribeTableWellFormed(o);
    FlagsOfRuns(DescribeFlags, DescribeFields(o));
    OwnFlagsWellFormed();
    SharedTail(own, o.options, dc);
  }

  // ---------------------------------------------------------------------
  // fetch

  /** `dub fetch PACKAGE [--cache=C] [shared options]`. */
  function FetchArgs(o: FetchOptions, dc: Option<string>): seq<string>
  {
    ["fetch", o.package] + Opt(CacheFlag, o.cache) + SharedArgs(o.options, dc)
  }

  lemma FetchLayout(o: FetchOptions, dc: Option<string>)
    ensures var args := FetchArgs(o, dc);
      && 2 <= |args| && args[..2] == ["fetch", o.package]
      && args[2..] == Opt(CacheFlag, o.cache) + SharedArgs(o.options, dc)
      && (o.cache.Some? ==> 3 <= |args| && args[2] == CacheFlag + o.cache.value)
      && (o.cache.None? ==> args[2..] == SharedArgs(o.options, dc))
      && DecodeShared(args[2..]) == o.options.(compiler := EffectiveCompiler(o.options, dc))
  {
    var args, own := FetchArgs(o, dc), Opt(CacheFlag, o.cache);
    assert args[2..] == own + SharedArgs(o.options, dc);
    OwnFlagsWellFormed();
    if o.cache.Some? {
      FlagOfValued(CacheFlag, o.cache.value);
    }
    SharedTail(own, o.options, dc);
  }

  // ---------------------------------------------------------------------
  // init

  /** The template name `dub init --type=` expects. */
  function TypeName(t: ProjectType): string
  {
    match t
    case Minimal => "minimal"
    case VibeD => "vibe.d"
    case Deimos => "deimos"
    case Custom => "custom"
  }

  /** Different templates are passed as different names. */
  lemma TypeNameInjective(a: ProjectType, b: ProjectType)
    ensures TypeName(a) == TypeName(b) <==> a == b
  {
  }

  /** `dub init [DIRECTORY] [DEPENDENCY]... --type=T [--non-interactive] [shared options]`. */
  function InitArgs(o: InitOptions, dc: Option<string>): seq<string>
  {
    ["init"] + o.directory.ToSeq() + o.dependencies + [TypeFlag + TypeName(o.projectType)]
      + Switch(NonInteractiveFlag, o.nonInteractive) + SharedArgs(o.options, dc)
  }

  /** The directory and dependencies follow `init`, then the one `--type=`
      token and `init`'s own `--non-interactive` when asked for. */
  lemma InitLayout(o: InitOptions, dc: Option<string>)
    ensures var args, n := InitArgs(o, dc), |o.directory.ToSeq()| + |o.dependencies|;
      && n + 1 < |args| && args[0] == "init"
      && args[1..1 + n] == o.directory.ToSeq() + o.dependencies
      && args[1 + n..] == [TypeFlag + TypeName(o.projectType)] + Switch(NonInteractiveFlag, o.nonInteractive) + SharedArgs(o.options, dc)
      && args[1 + n] == TypeFlag + TypeName(o.projectType)
      && (o.nonInteractive ==> n + 2 < |args| && args[n + 2] == NonInteractiveFlag)
  {
    var lead := o.directory.ToSeq() + o.dependencies;
    var tail := [TypeFlag + TypeName(o.projectType)] + (Switch(NonInteractiveFlag, o.nonInteractive) + SharedArgs(o.options, dc));
    InitArgsSplit(o, dc);
    SplitAfter("init", lead, tail);
    assert tail == [TypeFlag + TypeName(o.projectType)] + Switch(NonInteractiveFlag, o.nonInteractive) + SharedArgs(o.options, dc);
    assert tail[0] == TypeFlag + TypeName(o.projectType);
    if o.nonInteractive {
      assert tail[1] == NonInteractiveFlag;
    }
  }

  /** Reading the shared options from the `--type=` token on gives the
      shared options, with `--non-interactive` set when either `init`'s own
      switch or the shared one is set. */
  lemma InitSharedTail(o: InitOptions, dc: Option<string>)
    ensures var args, n := InitArgs(o, dc), |o.directory.ToSeq()| + |o.dependencies|;
      && n < |args|
      && DecodeShared(args[1 + n..]) == o.options.(compiler := EffectiveCompiler(o.options, dc),
                                                  nonInteractive := o.nonInteractive || o.options.nonInteractive)
  {
    var lead := o.directory.ToSeq() + o.dependencies;
    var tail := [TypeFlag + TypeName(o.projectType)] + (Switch(NonInteractiveFlag, o.nonInteractive) + SharedArgs(o.options, dc));
    InitArgsSplit(o, dc);
    SplitAfter("init", lead, tail);
    DecodeInitTail(o, dc);
  }

  /** The init arguments, split after the dependencies. */
  lemma InitArgsSplit(o: InitOptions, dc: Option<string>)
    ensures InitArgs(o, dc) == (["init"] + (o.directory.ToSeq() + o.dependencies))
      + ([TypeFlag + TypeName(o.projectType)] + (Switch(NonInteractiveFlag, o.nonInteractive) + SharedArgs(o.options, dc)))
  {
  }

  /** The shared options read from the `--type=` token on. */
  lemma DecodeInitTail(o: InitOptions, dc: Option<string>)
    ensures DecodeShared([TypeFlag + TypeName(o.projectType)] + (Switch(NonInteractiveFlag, o.nonInteractive) + SharedArgs(o.options, dc)))
      == o.options.(compiler := EffectiveCompiler(o.options, dc), nonInteractive := o.nonInteractive || o.options.nonInteractive)
  {
    var typeToken, ni, rest := [TypeFlag + TypeName(o.projectType)], Switch(NonInteractiveFlag, o.nonInteractive), SharedArgs(o.options, dc);
    OwnFlagsWellFormed();
    FlagOfValued(TypeFlag, TypeName(o.projectType));
    DecodeIgnoresOtherFlags(typeToken, ni + rest);
    SharedArgsRoundTrip(o.options, dc);
    if o.nonInteractive {
      DecodeAfterNonInteractive(rest);
    } else {
      assert ni + rest == rest;
    }
  }

  /** With both switches set, `--non-interactive` is passed twice: `init`'s
      own token, and the shared one among the shared options after it. */
  lemma InitNonInteractiveTwice(o: InitOptions, dc: Option<string>)
    requires o.nonInteractive && o.options.nonInteractive
    ensures var args, n := InitArgs(o, dc), |o.directory.ToSeq()| + |o.dependencies|;
      && n + 2 < |args| && args[n + 2] == NonInteractiveFlag
      && Picked(args[n + 3..], SharedRank, 10) == [NonInteractiveFlag]
  {
    var lead, rest := o.directory.ToSeq() + o.dependencies, SharedArgs(o.options, dc);
    var tail := [TypeFlag + TypeName(o.projectType)] + (Switch(NonInteractiveFlag, o.nonInteractive) + rest);
    InitArgsSplit(o, dc);
    SplitAfter("init", lead, tail);
    assert tail[1] == NonInteractiveFlag && tail[2..] == rest;
    SharedNonInteractive(o.options, dc);
  }

  /** The shared options pass a set `--non-interactive` once. */
  lemma SharedNonInteractive(o: DubOptions, dc: Option<string>)
    requires o.nonInteractive
    ensures Picked(SharedArgs(o, dc), SharedRank, 10) == [NonInteractiveFlag]
  {
    SharedArgsOfFlag(o, dc, 10);
  }

  // ---------------------------------------------------------------------
  // clean

  /** `dub clean [PACKAGE] [--all-packages] [shared options]`. */
  function CleanArgs(o: CleanOptions, dc: Option<string>): seq<string>
  {
    ["clean"] + o.package.ToSeq() + Switch(AllPackagesFlag, o.allPackages) + SharedArgs(o.options, dc)
  }

  /** A token of a flag outside the shared set is never among the shared options. */
  lemma NotShared(t: string, o: DubOptions, dc: Option<string>)
    requires FlagName(t) !in SharedFlags
    ensures t !in SharedArgs(o, dc)
  {
    SharedArgsFlags(o, dc);
  }

  lemma CleanLayout(o: CleanOptions, dc: Option<string>)
    ensures var args, n := CleanArgs(o, dc), |o.package.ToSeq()|;
      && n < |args| && args[0] == "clean" && args[1..1 + n] == o.package.ToSeq()
      && args[1 + n..] == Switch(AllPackagesFlag, o.allPackages) + SharedArgs(o.options, dc)
      && (o.allPackages <==> AllPackagesFlag in args[1 + n..])
      && DecodeShared(args[1 + n..]) == o.options.(compiler := EffectiveCompiler(o.options, dc))
  {
    var args, pkg := CleanArgs(o, dc), o.package.ToSeq();
    var own, rest := Switch(AllPackagesFlag, o.allPackages), SharedArgs(o.options, dc);
    assert args == (["clean"] + pkg) + (own + rest);
    SplitAfter("clean", pkg, own + rest);
    OwnFlagsWellFormed();
    FlagOfSwitch(AllPackagesFlag);
    NotShared(AllPackagesFlag, o.options, dc);
    SharedTail(own, o.options, dc);
  }

  // ---------------------------------------------------------------------
  // lint

  /** `lint`'s own options in the order of `LintFlags`; an absent list of
      import paths and an empty one both add nothing. */
  function LintFields(o: LintOptions): seq<Field>
  {
    [Toggle(o.syntaxCheck), Toggle(o.styleCheck), Scalar(o.errorFormat), Toggle(o.report),
     Scalar(o.reportFormat), Scalar(o.reportFile),
     List(if o.importPaths.Some? then o.importPaths.value else []), Scalar(o.dscannerConfig)]
  }

  function LintOwnArgs(o: LintOptions): seq<string>
  {
    Flatten(RunsOf(LintFlags, LintFields(o)))
  }

  /** `dub lint [PACKAGE] [lint flags] [shared options]`. */
  function LintArgs(o: LintOptions, dc: Option<string>): seq<string>
  {
    ["lint"] + o.package.ToSeq() + LintOwnArgs(o) + SharedArgs(o.options, dc)
  }

  /** The lint flags are distinct. */
  lemma LintFlagsDistinct()
    ensures Distinct(LintFlags)
  {
  }

  /** The lint switches are bare names; the other lint flags take values. */
  lemma LintFlagKinds()
    ensures NoEquals(SyntaxCheckFlag) && NoEquals(StyleCheckFlag) && NoEquals(ReportFlag)
    ensures ValuedFlag(ErrorFormatFlag) && ValuedFlag(ReportFormatFlag) && ValuedFlag(ReportFileFlag)
    ensures ValuedFlag(ImportPathsFlag) && ValuedFlag(DscannerConfigFlag)
  {
  }

  lemma LintTableWellFormed(o: LintOptions)
    ensures WellFormedTable(LintFlags, LintFields(o))
  {
    LintFlagsDistinct();
    LintFlagKinds();
    var fs := LintFields(o);
    forall k | 0 <= k < |fs| ensures KindFits(LintFlags[k], fs[k]) {
    }
  }

  /** The lint flags come in the order of `LintFlags`. */
  lemma LintFlagOrder(o: LintOptions)
    ensures Segment(LintOwnArgs(o), RankIn(LintFlags), 0, |LintFlags| - 1)
  {
    LintTableWellFormed(o);
    RunsInOrder(LintFlags, LintFields(o));
  }

  /** The tokens of lint flag `k` are exactly what its option asks for. */
  lemma LintArgsOfFlag(o: LintOptions, k: nat)
    requires k < |LintFlags|
    ensures Picked(LintOwnArgs(o), RankIn(LintFlags), k) == FlagTokens(LintFlags[k], LintFields(o)[k])
  {
    LintTableWellFormed(o);
    PickedOfRuns(LintFlags, LintFields(o), k);
  }

  lemma LintLayout(o: LintOptions, dc: Option<string>)
    ensures var args, n := LintArgs(o, dc), |o.package.ToSeq()|;
      && n < |args| && args[0] == "lint" && args[1..1 + n] == o.package.ToSeq()
      && args[1 + n..] == LintOwnArgs(o) + SharedArgs(o.options, dc)
      && DecodeShared(args[1 + n..]) == o.options.(compiler := EffectiveCompiler(o.options, dc))
  {
    var args, pkg, own := LintArgs(o, dc), o.package.ToSeq(), LintOwnArgs(o);
    var rest := SharedArgs(o.options, dc);
    assert args == (["lint"] + pkg) + (own + rest);
    SplitAfter("lint", pkg, own + rest);
    LintTableWellFormed(o);
    FlagsOfRuns(LintFlags, LintFields(o));
    OwnFlagsWellFormed();
    SharedTail(own, o.options, dc);
  }

  // ---------------------------------------------------------------------
  // convert

  /** The manifest `convert` reads: the one in the other format. */
  function ConvertSource(f: Format): string
  {
    match f
    case Json => "dub.sdl"
    case Sdl => "dub.json"
  }

  function ConvertTarget(f: Format): string
  {
    match f
    case Json => "json"
    case Sdl => "sdl"
  }

  /** What `convert_format` runs, or the error it returns when the source
      manifest is not among the existing files. */
  function ConvertPlan(f: Format, files: set<string>): Result<seq<string>, string>
  {
    var source := ConvertSource(f);
    if source !in files then Err("Source file '" + source + "' not found")
    else Ok(["convert", "--format=" + ConvertTarget(f)])
  }

  /** Converting to a format reads the manifest of the other format. */
  lemma ConvertReadsOtherManifest(f: Format)
    ensures ConvertSource(f) != "dub." + ConvertTarget(f)
    ensures ConvertSource(f) == "dub." + ConvertTarget(if f == Json then Sdl else Json)
  {
  }

  /** `convert` fails exactly when the source manifest is missing, and then
      the message names it; otherwise it passes exactly the target format. */
  lemma ConvertPlanCases(f: Format, files: set<string>)
    ensures ConvertPlan(f, files).Err? <==> ConvertSource(f) !in files
    ensures ConvertPlan(f, files).Err? ==> Mentions(ConvertPlan(f, files).error, ConvertSource(f))
    ensures ConvertPlan(f, files).Ok? ==>
      && |ConvertPlan(f, files).value| == 2 && ConvertPlan(f, files).value[0] == "convert"
      && ConvertPlan(f, files).value[1] == "--format=" + ConvertTarget(f)
      && FlagName(ConvertPlan(f, files).value[1]) == "--format="
      && FlagValue(ConvertPlan(f, files).value[1]) == ConvertTarget(f)
  {
    var source := ConvertSource(f);
    if source !in files {
      var message := "Source file '" + source + "' not found";
      assert message[13..][..|source|] == source;
    } else {
      FlagOfValued("--format=", ConvertTarget(f));
    }
  }
}
