/**
  Locating the `dub` executable (src/main.rs `DubExecutable::new` and
  `DubExecutable::command`): the platform's candidate names are probed in
  order with `--version`, and the first one whose probe succeeds is used.

  Whether the platform is Windows is a parameter, and the probe runs through
  the same `System` function as every other child process.
*/
module Resolver {
  import opened Wrappers
  import opened Tokens
  import opened Process

  /** The resolved executable: the program name every child command runs. */
  datatype DubExecutable = DubExecutable(path: string)

  const NotFoundMessage := "dub executable not found. Install DUB from https://dub.pm"

  /** The names tried, in order: `dub.exe` before `dub` on Windows. */
  function Candidates(windows: bool): (cs: seq<string>)
    ensures 0 < |cs| && cs[|cs| - 1] == "dub"
    ensures "dub.exe" in cs <==> windows
  {
    if windows then ["dub.exe", "dub"] else ["dub"]
  }

  /** `Command::new(candidate).arg("--version").status()` succeeded;
      a probe that could not start counts as a failure. */
  predicate Live(os: System, candidate: string)
  {
    Success(os(candidate, ["--version"]))
  }

  /** Position of the first live candidate, if any. */
  function FirstLive(os: System, cs: seq<string>): (r: Option<nat>)
    ensures r.Some? ==> r.value < |cs| && Live(os, cs[r.value])
    ensures r.Some? ==> forall j :: 0 <= j < r.value ==> !Live(os, cs[j])
    ensures r.None? ==> forall j :: 0 <= j < |cs| ==> !Live(os, cs[j])
  {
    if cs == [] then None
    else if Live(os, cs[0]) then Some(0)
    else match FirstLive(os, cs[1..])
      case None => None
      case Some(i) => Some(i + 1)
  }

  /** What `DubExecutable::new` returns. */
  function Resolve(windows: bool, os: System): (r: Result<DubExecutable, string>)
    ensures r.Ok? <==> exists i :: 0 <= i < |Candidates(windows)| && Live(os, Candidates(windows)[i])
    ensures r.Ok? ==> r.value.path in Candidates(windows) && Live(os, r.value.path)
    ensures r.Err? ==> r.error == NotFoundMessage
  {
    var cs := Candidates(windows);
    match FirstLive(os, cs)
    case None => Err(NotFoundMessage)
    case Some(i) => Ok(DubExecutable(cs[i]))
  }

  /** A live candidate with no live one before it is the one chosen. */
  lemma {:induction false} FirstLiveIs(os: System, cs: seq<string>, i: nat)
    requires i < |cs| && Live(os, cs[i])
    requires forall j :: 0 <= j < i ==> !Live(os, cs[j])
    ensures FirstLive(os, cs) == Some(i)
  {
    if i > 0 {
      assert !Live(os, cs[0]);
      FirstLiveIs(os, cs[1..], i - 1);
    }
  }

  /** `DubExecutable::new`: probe the candidates in order, stop at the first live one. */
  method NewDubExecutable(windows: bool, os: System) returns (r: Result<DubExecutable, string>)
    ensures r == Resolve(windows, os)
  {
    var candidates := if windows then ["dub.exe", "dub"] else ["dub"];
    for i := 0 to |candidates|
      invariant forall j :: 0 <= j < i ==> !Live(os, candidates[j])
    {
      var probe := new Command(candidates[i]);
      probe.Arg("--version");
      assert probe.args == ["--version"];
      var status := os(probe.program, probe.args);
      if Success(status) {
        FirstLiveIs(os, candidates, i);
        return Ok(DubExecutable(candidates[i]));
      }
    }
    return Err(NotFoundMessage);
  }

  /** `DubExecutable::command`: a fresh command for the resolved program, with no arguments yet. */
  method NewCommand(dub: DubExecutable) returns (cmd: Command)
    ensures fresh(cmd) && cmd.program == dub.path && cmd.args == []
  {
    cmd := new Command(dub.path);
  }

  /** On Windows `dub.exe` is preferred; `dub` is used only when `dub.exe` does not answer. */
  lemma WindowsPrefersExe(os: System)
    ensures Live(os, "dub.exe") ==> Resolve(true, os) == Ok(DubExecutable("dub.exe"))
    ensures !Live(os, "dub.exe") && Live(os, "dub") ==> Resolve(true, os) == Ok(DubExecutable("dub"))
  {
    var cs := Candidates(true);
    if Live(os, "dub.exe") {
      FirstLiveIs(os, cs, 0);
    } else if Live(os, "dub") {
      FirstLiveIs(os, cs, 1);
    }
  }

  /** Elsewhere only `dub` is tried. */
  lemma OtherPlatformsTryDubOnly(os: System)
    ensures Resolve(false, os) == if Live(os, "dub") then Ok(DubExecutable("dub")) else Err(NotFoundMessage)
  {
    if Live(os, "dub") {
      FirstLiveIs(os, Candidates(false), 0);
    }
  }

  /** The failure message points the user at the DUB download site. */
  lemma NotFoundNamesInstallSite()
    ensures Mentions(NotFoundMessage, "https://dub.pm")
  {
    var i := |NotFoundMessage| - |"https://dub.pm"|;
    assert NotFoundMessage[i..] == "https://dub.pm";
  }
}
