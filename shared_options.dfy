/**
  The encoding of the shared option set (src/main.rs `build_dub_args`): the
  specification function `SharedArgs`, the method that appends it to a
  command, and what the encoding promises — the fixed flag order, one token
  per present scalar and set switch, one per list element in list order, the
  `DC` fallback for the compiler, and a decoder that reads the options back.

  Each of the fourteen shared options is one flag of `SharedFlags`; its value
  is a `Field` of the kind the flag takes, and the encoding is one run of
  tokens per flag, in table order.
*/
module SharedOptions {
  import opened Wrappers
  import opened Tokens
  import opened Request
  import opened Process

  const CompilerFlag := "--compiler="
  const BuildFlag := "--build="
  const ConfigFlag := "--config="
  const ArchFlag := "--arch="
  const RdmdFlag := "--rdmd"
  const TempBuildFlag := "--temp-build"
  const ForceFlag := "--force"
  const DeepFlag := "--deep"
  const NodepsFlag := "--nodeps"
  const YesFlag := "--yes"
  const NonInteractiveFlag := "--non-interactive"
  const DVersionFlag := "--d-version="
  const DebugFlag := "--debug="
  const OverrideConfigFlag := "--override-config="

  /** The flags of the shared option set, in the order they are emitted. */
  const SharedFlags: seq<string> := [
    CompilerFlag, BuildFlag, ConfigFlag, ArchFlag,
    RdmdFlag, TempBuildFlag, ForceFlag, DeepFlag, NodepsFlag, YesFlag, NonInteractiveFlag,
    DVersionFlag, DebugFlag, OverrideConfigFlag]

  /** Rank of a token among the shared flags; 14 for any other token. */
  const SharedRank: string -> nat := RankIn(SharedFlags)

  lemma SharedFlagsWellFormed()
    ensures |SharedFlags| == 14 && Distinct(SharedFlags)
    ensures forall k :: 0 <= k < 4 || 11 <= k < 14 ==> ValuedFlag(SharedFlags[k])
    ensures forall k :: 4 <= k < 11 ==> NoEquals(SharedFlags[k])
  {
    assert ValuedFlag(CompilerFlag) && ValuedFlag(BuildFlag) && ValuedFlag(ConfigFlag) && ValuedFlag(ArchFlag);
    assert ValuedFlag(DVersionFlag) && ValuedFlag(DebugFlag) && ValuedFlag(OverrideConfigFlag);
  }

  // ---------------------------------------------------------------------
  // The options, flag by flag

  /** Flags 0-3 take scalars, 4-10 are switches, 11-13 take lists. */
  predicate Fits(k: nat, f: Field)
  {
    if k < 4 then f.Scalar? else if k < 11 then f.Toggle? else f.List?
  }

  /** The compiler actually passed: the explicit field, else the value of `DC`. */
  function EffectiveCompiler(o: DubOptions, dc: Option<string>): Option<string>
  {
    o.compiler.OrElse(dc)
  }

  /** The value of every shared flag, in table order, with the compiler
      resolved against `DC`. */
  function Fields(o: DubOptions, dc: Option<string>): (fs: seq<Field>)
    ensures |fs| == |SharedFlags|
    ensures forall k :: 0 <= k < |fs| ==> Fits(k, fs[k])
  {
    [Scalar(EffectiveCompiler(o, dc)), Scalar(o.build), Scalar(o.config), Scalar(o.arch),
     Toggle(o.rdmd), Toggle(o.tempBuild), Toggle(o.force), Toggle(o.deep),
     Toggle(o.nodeps), Toggle(o.yes), Toggle(o.nonInteractive),
     List(o.dVersions), List(o.debug), List(o.overrideConfig)]
  }

  /** The options whose flags hold the given fields. */
  function Assemble(fs: seq<Field>): DubOptions
    requires |fs| == |SharedFlags| && forall k :: 0 <= k < |fs| ==> Fits(k, fs[k])
  {
    assert Fits(0, fs[0]) && Fits(1, fs[1]) && Fits(2, fs[2]) && Fits(3, fs[3]);
    assert Fits(4, fs[4]) && Fits(5, fs[5]) && Fits(6, fs[6]) && Fits(7, fs[7]);
    assert Fits(8, fs[8]) && Fits(9, fs[9]) && Fits(10, fs[10]);
    assert Fits(11, fs[11]) && Fits(12, fs[12]) && Fits(13, fs[13]);
    DubOptions(
      compiler := fs[0].value, build := fs[1].value, config := fs[2].value, arch := fs[3].value,
      rdmd := fs[4].on, tempBuild := fs[5].on, force := fs[6].on, deep := fs[7].on,
      nodeps := fs[8].on, yes := fs[9].on, nonInteractive := fs[10].on,
      dVersions := fs[11].values, debug := fs[12].values, overrideConfig := fs[13].values)
  }

  /** Gathering the fields back gives the options, with the compiler that is actually passed. */
  lemma AssembleFields(o: DubOptions, dc: Option<string>)
    ensures Assemble(Fields(o, dc)) == o.(compiler := EffectiveCompiler(o, dc))
  {
  }

  // ---------------------------------------------------------------------
  // The encoding

  /** Run `k` is what `build_dub_args` emits for flag `k`. */
  function SharedRuns(o: DubOptions, dc: Option<string>): (runs: seq<seq<string>>)
    ensures |runs| == |SharedFlags|
  {
    RunsOf(SharedFlags, Fields(o, dc))
  }

  /** The options' fields fit the shared flag table. */
  lemma SharedTableWellFormed(o: DubOptions, dc: Option<string>)
    ensures WellFormedTable(SharedFlags, Fields(o, dc))
  {
    SharedFlagsWellFormed();
    var fs := Fields(o, dc);
    forall k | 0 <= k < |fs| ensures KindFits(SharedFlags[k], fs[k]) {
      assert Fits(k, fs[k]);
    }
  }

  /** The tokens `build_dub_args` appends for `o` when `DC` holds `dc`. */
  function SharedArgs(o: DubOptions, dc: Option<string>): seq<string>
  {
    Flatten(SharedRuns(o, dc))
  }

  /** The switch table the source walks, in its order (deep before nodeps). */
  function SwitchTable(o: DubOptions): seq<(string, bool)>
  {
    [(RdmdFlag, o.rdmd), (TempBuildFlag, o.tempBuild), (ForceFlag, o.force),
     (DeepFlag, o.deep), (NodepsFlag, o.nodeps), (YesFlag, o.yes),
     (NonInteractiveFlag, o.nonInteractive)]
  }

  /** Runs 0-3 are the four scalar flags. */
  lemma ScalarRunsAre(o: DubOptions, dc: Option<string>)
    ensures var runs := SharedRuns(o, dc);
      && runs[0] == Opt(CompilerFlag, o.compiler.OrElse(dc)) && runs[1] == Opt(BuildFlag, o.build)
      && runs[2] == Opt(ConfigFlag, o.config) && runs[3] == Opt(ArchFlag, o.arch)
  {
  }

  /** Entry `i` of the switch table produces run `4 + i`: the form the loop
      of `AppendSwitches` walks, indexed by table entry. `SwitchRunsAre`
      states the same runs switch by switch, for the spelled-out encoding. */
  lemma SwitchTableRun(o: DubOptions, dc: Option<string>, i: nat)
    requires i < |SwitchTable(o)|
    ensures SharedRuns(o, dc)[4 + i] == Switch(SwitchTable(o)[i].0, SwitchTable(o)[i].1)
  {
  }

  lemma SwitchTableRuns(o: DubOptions, dc: Option<string>)
    ensures forall i :: 0 <= i < |SwitchTable(o)| ==>
      SharedRuns(o, dc)[4 + i] == Switch(SwitchTable(o)[i].0, SwitchTable(o)[i].1)
  {
    forall i | 0 <= i < |SwitchTable(o)| {
      SwitchTableRun(o, dc, i);
    }
  }

  // ---------------------------------------------------------------------
  // The method

  /** `build_dub_args`: append the shared options to `cmd` — the scalars,
      the switch table, then the lists. */
  method BuildDubArgs(cmd: Command, opts: DubOptions, dc: Option<string>)
    modifies cmd
    ensures cmd.args == old(cmd.args) + SharedArgs(opts, dc)
  {
    ghost var runs := SharedRuns(opts, dc);
    AppendScalars(cmd, opts, dc, cmd.args);
    AppendSwitches(cmd, opts, dc, old(cmd.args));
    AppendLists(cmd, opts, dc, old(cmd.args));
    assert runs[..14] == runs;
  }

  /** Compiler (falling back to `DC`), build type, configuration, architecture. */
  method AppendScalars(cmd: Command, opts: DubOptions, dc: Option<string>, ghost start: seq<string>)
    requires cmd.args == start
    modifies cmd
    ensures cmd.args == start + Flatten(SharedRuns(opts, dc)[..4])
  {
    ghost var runs := SharedRuns(opts, dc);
    ScalarRunsAre(opts, dc);
    assert runs[..0] == [];
    AppendOpt(cmd, CompilerFlag, opts.compiler.OrElse(dc));
    FlattenStep(runs, 0);
    assert cmd.args == start + Flatten(runs[..1]);
    AppendOpt(cmd, BuildFlag, opts.build);
    FlattenStep(runs, 1);
    assert cmd.args == start + Flatten(runs[..2]);
    AppendOpt(cmd, ConfigFlag, opts.config);
    FlattenStep(runs, 2);
    assert cmd.args == start + Flatten(runs[..3]);
    AppendOpt(cmd, ArchFlag, opts.arch);
    FlattenStep(runs, 3);
  }

  /** The loop over the switch table: each set switch adds its flag. */
  method AppendSwitches(cmd: Command, opts: DubOptions, dc: Option<string>, ghost start: seq<string>)
    requires cmd.args == start + Flatten(SharedRuns(opts, dc)[..4])
    modifies cmd
    ensures cmd.args == start + Flatten(SharedRuns(opts, dc)[..11])
  {
    SwitchTableRuns(opts, dc);
    AppendEnabled(cmd, SwitchTable(opts), SharedRuns(opts, dc), 4, start);
  }

  /** The loop over a table of switches whose entries produce runs `lo`
      onwards: each enabled switch adds its flag. */
  method AppendEnabled(cmd: Command, table: seq<(string, bool)>, ghost runs: seq<seq<string>>,
                       ghost lo: nat, ghost start: seq<string>)
    requires lo + |table| <= |runs|
    requires forall i :: 0 <= i < |table| ==> runs[lo + i] == Switch(table[i].0, table[i].1)
    requires cmd.args == start + Flatten(runs[..lo])
    modifies cmd
    ensures cmd.args == start + Flatten(runs[..lo + |table|])
  {
    for i := 0 to |table|
      invariant cmd.args == start + Flatten(runs[..lo + i])
    {
      var (flag, enabled) := table[i];
      if enabled {
        cmd.Arg(flag);
      }
      FlattenStep(runs, lo + i);
    }
  }

  /** Versions, debug identifiers and configuration overrides, one token per element. */
  method AppendLists(cmd: Command, opts: DubOptions, dc: Option<string>, ghost start: seq<string>)
    requires cmd.args == start + Flatten(SharedRuns(opts, dc)[..11])
    modifies cmd
    ensures cmd.args == start + Flatten(SharedRuns(opts, dc)[..14])
  {
    ListRunsAre(opts, dc);
    AppendListRuns(cmd, opts, SharedRuns(opts, dc), start);
  }

  /** Runs 11-13 are the three lists. */
  lemma ListRunsAre(o: DubOptions, dc: Option<string>)
    ensures var runs := SharedRuns(o, dc);
      && runs[11] == Each(DVersionFlag, o.dVersions) && runs[12] == Each(DebugFlag, o.debug)
      && runs[13] == Each(OverrideConfigFlag, o.overrideConfig)
  {
  }

  /** The three list loops, appending the runs that follow the switches. */
  method AppendListRuns(cmd: Command, opts: DubOptions, ghost runs: seq<seq<string>>, ghost start: seq<string>)
    requires |runs| == 14
    requires runs[11] == Each(DVersionFlag, opts.dVersions) && runs[12] == Each(DebugFlag, opts.debug)
    requires runs[13] == Each(OverrideConfigFlag, opts.overrideConfig)
    requires cmd.args == start + Flatten(runs[..11])
    modifies cmd
    ensures cmd.args == start + Flatten(runs[..14])
  {
    AppendEach(cmd, DVersionFlag, opts.dVersions);
    FlattenStep(runs, 11);
    assert cmd.args == start + Flatten(runs[..12]);
    AppendEach(cmd, DebugFlag, opts.debug);
    FlattenStep(runs, 12);
    assert cmd.args == start + Flatten(runs[..13]);
    AppendEach(cmd, OverrideConfigFlag, opts.overrideConfig);
    FlattenStep(runs, 13);
  }

  /** `if let Some(v) = value { cmd.arg(format!("{name}{v}")) }`. */
  method AppendOpt(cmd: Command, name: string, value: Option<string>)
    modifies cmd
    ensures cmd.args == old(cmd.args) + Opt(name, value)
  {
    if value.Some? {
      cmd.Arg(name + value.value);
    }
  }

  /** One `cmd.arg(format!("{name}{v}"))` per element `v`, in order. */
  method AppendEach(cmd: Command, name: string, values: seq<string>)
    modifies cmd
    ensures cmd.args == old(cmd.args) + Each(name, values)
  {
    for i := 0 to |values|
      invariant cmd.args == old(cmd.args) + Each(name, values[..i])
    {
      cmd.Arg(name + values[i]);
      EachSnoc(name, values, i);
    }
    assert values[..|values|] == values;
  }

  // ---------------------------------------------------------------------
  // Properties of the encoding

  /** The flags appear in the order of `SharedFlags`, and every token is a shared flag. */
  lemma SharedArgsInFlagOrder(o: DubOptions, dc: Option<string>)
    ensures Segment(SharedArgs(o, dc), SharedRank, 0, 13)
  {
    SharedTableWellFormed(o, dc);
    RunsInOrder(SharedFlags, Fields(o, dc));
  }

  /** The tokens of flag `k` are exactly the tokens of its field. */
  lemma SharedArgsOfFlag(o: DubOptions, dc: Option<string>, k: nat)
    requires k < |SharedFlags|
    ensures Picked(SharedArgs(o, dc), SharedRank, k) == FlagTokens(SharedFlags[k], Fields(o, dc)[k])
  {
    SharedTableWellFormed(o, dc);
    PickedOfRuns(SharedFlags, Fields(o, dc), k);
  }

  /** No scalar or switch is passed twice. */
  lemma SharedArgsSingleValued(o: DubOptions, dc: Option<string>, k: nat)
    requires k < 11
    ensures |Picked(SharedArgs(o, dc), SharedRank, k)| <= 1
  {
    SharedArgsOfFlag(o, dc, k);
  }

  /** The `--compiler=` token: the explicit compiler wins over `DC`; with
      neither there is no such token at all. */
  lemma CompilerFallback(o: DubOptions, dc: Option<string>)
    ensures o.compiler.Some? ==> Picked(SharedArgs(o, dc), SharedRank, 0) == ["--compiler=" + o.compiler.value]
    ensures o.compiler.None? && dc.Some? ==> Picked(SharedArgs(o, dc), SharedRank, 0) == ["--compiler=" + dc.value]
    ensures o.compiler.None? && dc.None? ==>
      forall i :: 0 <= i < |SharedArgs(o, dc)| ==> FlagName(SharedArgs(o, dc)[i]) != "--compiler="
  {
    SharedArgsOfFlag(o, dc, 0);
    if o.compiler.None? && dc.None? {
      var ts := SharedArgs(o, dc);
      PickedNone(ts, SharedRank, 0);
      SharedFlagsWellFormed();
      IndexOfDistinct(SharedFlags, 0);
      forall i | 0 <= i < |ts| ensures FlagName(ts[i]) != "--compiler=" {
        assert SharedRank(ts[i]) != 0;
      }
    }
  }

  /** Default options with `DC` unset add nothing to the command line. */
  lemma DefaultOptionsEncodeNothing()
    ensures SharedArgs(DefaultOptions, None) == []
  {
    var runs := SharedRuns(DefaultOptions, None);
    forall k | 0 <= k < |runs| ensures runs[k] == [] { }
    FlattenEmptyRuns(runs);
  }

  // ---------------------------------------------------------------------
  // Reading the options back

  /** The last of the values: the decoder reads a repeated scalar as its last
      occurrence (the encoding never repeats one). */
  function Last(vs: seq<string>): Option<string>
  {
    if vs == [] then None else Some(vs[|vs| - 1])
  }

  /** The values given to shared flag `k`. */
  function Given(ts: seq<string>, k: nat): seq<string>
  {
    Values(Picked(ts, SharedRank, k))
  }

  /** Flag `k` read from the values it was given: the last value of a scalar,
      whether a switch occurs at all, every value of a list. */
  function Read(k: nat, vs: seq<string>): (f: Field)
    ensures Fits(k, f)
  {
    if k < 4 then Scalar(Last(vs)) else if k < 11 then Toggle(vs != []) else List(vs)
  }

  /** The options a token list sets, read flag by flag. */
  function DecodeShared(ts: seq<string>): DubOptions
  {
    Assemble(seq(|SharedFlags|, k requires 0 <= k < |SharedFlags| => Read(k, Given(ts, k))))
  }

  /** Reading a flag's own tokens gives back its field. */
  lemma ReadRun(k: nat, f: Field)
    requires k < |SharedFlags| && Fits(k, f)
    ensures Read(k, Values(FlagTokens(SharedFlags[k], f))) == f
  {
    SharedFlagsWellFormed();
    match f
    case Scalar(v) => ValuesOfOpt(SharedFlags[k], v);
    case Toggle(on) =>
    case List(vs) => ValuesOfEach(SharedFlags[k], vs);
  }

  /** Decoding the encoding gives back the options, with the compiler that was
      actually passed: no option is lost, and list values keep their order
      and count. Order across flags and single occurrence of scalars and
      switches are `SharedArgsInFlagOrder` and `SharedArgsSingleValued`. */
  lemma SharedArgsRoundTrip(o: DubOptions, dc: Option<string>)
    ensures DecodeShared(SharedArgs(o, dc)) == o.(compiler := EffectiveCompiler(o, dc))
  {
    var ts, fs := SharedArgs(o, dc), Fields(o, dc);
    var read := seq(|SharedFlags|, k requires 0 <= k < |SharedFlags| => Read(k, Given(ts, k)));
    forall k | 0 <= k < |SharedFlags| ensures read[k] == fs[k] {
      SharedArgsOfFlag(o, dc, k);
      ReadRun(k, fs[k]);
    }
    assert read == fs;
    AssembleFields(o, dc);
  }

  /** Tokens of flags outside the shared set, placed before the shared ones,
      do not change what is read back. */
  lemma DecodeIgnoresOtherFlags(other: seq<string>, ts: seq<string>)
    requires forall i :: 0 <= i < |other| ==> FlagName(other[i]) !in SharedFlags
    ensures DecodeShared(other + ts) == DecodeShared(ts)
  {
    forall k | 0 <= k < 14 ensures Given(other + ts, k) == Given(ts, k) {
      PickedConcat(other, ts, SharedRank, k);
      forall i | 0 <= i < |other| ensures SharedRank(other[i]) != k {
        assert IndexOf(FlagName(other[i]), SharedFlags) == |SharedFlags|;
      }
      PickedNone(other, SharedRank, k);
      AppendEmpty(Picked(ts, SharedRank, k), Picked(other, SharedRank, k));
    }
  }

  /** A token of `--non-interactive` has the rank of that switch. */
  lemma NonInteractiveRank()
    ensures SharedRank(NonInteractiveFlag) == 10
  {
    SharedFlagsWellFormed();
    FlagOfSwitch(NonInteractiveFlag);
    IndexOfDistinct(SharedFlags, 10);
  }

  /** Fields that differ only in the `--non-interactive` switch, set in `gs`,
      assemble to options that differ only in `nonInteractive`. */
  lemma AssembleSetsNonInteractive(fs: seq<Field>, gs: seq<Field>)
    requires |fs| == |SharedFlags| && forall k :: 0 <= k < |fs| ==> Fits(k, fs[k])
    requires |gs| == |SharedFlags| && forall k :: 0 <= k < |gs| ==> Fits(k, gs[k])
    requires forall k :: 0 <= k < |fs| && k != 10 ==> gs[k] == fs[k]
    requires gs[10] == Toggle(true)
    ensures Assemble(gs) == Assemble(fs).(nonInteractive := true)
  {
  }

  /** A `--non-interactive` put in front gives that switch a value and no other flag one. */
  lemma GivenAfterNonInteractive(ts: seq<string>, k: nat)
    ensures k != 10 ==> Given([NonInteractiveFlag] + ts, k) == Given(ts, k)
    ensures k == 10 ==> Given([NonInteractiveFlag] + ts, k) != []
  {
    NonInteractiveRank();
    PickedAfterFirst(NonInteractiveFlag, ts, SharedRank, k);
  }

  /** Reading a `--non-interactive` put before other tokens sets that switch
      and leaves every other option as the other tokens set it. */
  lemma DecodeAfterNonInteractive(ts: seq<string>)
    ensures DecodeShared([NonInteractiveFlag] + ts) == DecodeShared(ts).(nonInteractive := true)
  {
    var t := [NonInteractiveFlag] + ts;
    var before := seq(|SharedFlags|, k requires 0 <= k < |SharedFlags| => Read(k, Given(ts, k)));
    var after := seq(|SharedFlags|, k requires 0 <= k < |SharedFlags| => Read(k, Given(t, k)));
    forall k | 0 <= k < |SharedFlags| && k != 10 ensures after[k] == before[k] {
      GivenAfterNonInteractive(ts, k);
    }
    GivenAfterNonInteractive(ts, 10);
    AssembleSetsNonInteractive(before, after);
  }

  /** Every token of the encoding belongs to a shared flag. */
  lemma SharedArgsFlags(o: DubOptions, dc: Option<string>)
    ensures forall i :: 0 <= i < |SharedArgs(o, dc)| ==> FlagName(SharedArgs(o, dc)[i]) in SharedFlags
  {
    SharedTableWellFormed(o, dc);
    FlagsOfRuns(SharedFlags, Fields(o, dc));
  }

  /** The scalar runs, in order. */
  lemma ScalarArgs(o: DubOptions, dc: Option<string>)
    ensures Flatten(SharedRuns(o, dc)[..4])
      == Opt(CompilerFlag, EffectiveCompiler(o, dc)) + Opt(BuildFlag, o.build) + Opt(ConfigFlag, o.config) + Opt(ArchFlag, o.arch)
  {
    ScalarRunsAre(o, dc);
    FlattenFour(SharedRuns(o, dc)[..4]);
  }

  /** Runs 4-10 are the seven switches, named one by one (the table-indexed
      form used by the loop is `SwitchTableRuns`). */
  lemma SwitchRunsAre(o: DubOptions, dc: Option<string>)
    ensures var runs := SharedRuns(o, dc)[4..11];
      && runs[0] == Switch(RdmdFlag, o.rdmd) && runs[1] == Switch(TempBuildFlag, o.tempBuild)
      && runs[2] == Switch(ForceFlag, o.force) && runs[3] == Switch(DeepFlag, o.deep)
      && runs[4] == Switch(NodepsFlag, o.nodeps) && runs[5] == Switch(YesFlag, o.yes)
      && runs[6] == Switch(NonInteractiveFlag, o.nonInteractive)
  {
  }

  /** The switch runs, in the order of the switch table. */
  lemma SwitchArgs(o: DubOptions, dc: Option<string>)
    ensures Flatten(SharedRuns(o, dc)[4..11])
      == Switch(RdmdFlag, o.rdmd) + Switch(TempBuildFlag, o.tempBuild) + Switch(ForceFlag, o.force)
         + Switch(DeepFlag, o.deep) + (Switch(NodepsFlag, o.nodeps) + Switch(YesFlag, o.yes)
         + Switch(NonInteractiveFlag, o.nonInteractive))
  {
    var runs := SharedRuns(o, dc)[4..11];
    SwitchRunsAre(o, dc);
    assert runs == runs[..4] + runs[4..];
    FlattenConcat(runs[..4], runs[4..]);
    FlattenFour(runs[..4]);
    FlattenThree(runs[4..]);
  }

  /** The list runs, in order. */
  lemma ListArgs(o: DubOptions, dc: Option<string>)
    ensures Flatten(SharedRuns(o, dc)[11..])
      == Each(DVersionFlag, o.dVersions) + Each(DebugFlag, o.debug) + Each(OverrideConfigFlag, o.overrideConfig)
  {
    FlattenThree(SharedRuns(o, dc)[11..]);
  }

  /** `build_dub_args` written out: the scalars, the switches, the lists. */
  lemma SharedArgsSpelledOut(o: DubOptions, dc: Option<string>)
    ensures SharedArgs(o, dc) == Flatten(SharedRuns(o, dc)[..4]) + Flatten(SharedRuns(o, dc)[4..11]) + Flatten(SharedRuns(o, dc)[11..])
  {
    var runs := SharedRuns(o, dc);
    assert runs == runs[..4] + runs[4..11] + runs[11..];
    FlattenConcat(runs[..4] + runs[4..11], runs[11..]);
    FlattenConcat(runs[..4], runs[4..11]);
  }

  /** `build_dub_args` written out flag by flag. */
  lemma SharedArgsPieces(o: DubOptions, dc: Option<string>)
    ensures SharedArgs(o, dc)
      == Opt(CompilerFlag, EffectiveCompiler(o, dc)) + Opt(BuildFlag, o.build) + Opt(ConfigFlag, o.config) + Opt(ArchFlag, o.arch)
         + (Switch(RdmdFlag, o.rdmd) + Switch(TempBuildFlag, o.tempBuild) + Switch(ForceFlag, o.force)
            + Switch(DeepFlag, o.deep) + (Switch(NodepsFlag, o.nodeps) + Switch(YesFlag, o.yes)
            + Switch(NonInteractiveFlag, o.nonInteractive)))
         + (Each(DVersionFlag, o.dVersions) + Each(DebugFlag, o.debug) + Each(OverrideConfigFlag, o.overrideConfig))
  {
    SharedArgsSpelledOut(o, dc);
    ScalarArgs(o, dc);
    SwitchArgs(o, dc);
    ListArgs(o, dc);
  }
}
