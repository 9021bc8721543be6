/**
  The process layer of cargo-dub: the command line being assembled for the
  child `dub` process, what the operating system reports when that process
  is run, and how the report becomes cargo-dub's own exit status or error
  (src/main.rs `Command` use, `execute_command`, `main`).

  Running a program is not modelled: the operating system is a function
  parameter that maps a program path and its arguments to a `Status`.
*/
module Process {
  import opened Wrappers

  /** A child command being built: a program path and the arguments appended
      to it so far (std::process::Command as the source uses it). */
  class Command {
    const program: string
    var args: seq<string>

    constructor (program: string)
      ensures this.program == program && args == []
    {
      this.program := program;
      args := [];
    }

    /** `cmd.arg(a)`. */
    method Arg(a: string)
      modifies this
      ensures args == old(args) + [a]
    {
      args := args + [a];
    }

    /** `cmd.args(xs)`. */
    method Args(xs: seq<string>)
      modifies this
      ensures args == old(args) + xs
    {
      args := args + xs;
    }
  }

  /** The kinds of spawn failure the source tells apart (std::io::ErrorKind). */
  datatype ErrorKind = NotFound | PermissionDenied | WouldBlock | OtherKind

  /** What running a program reports: it exited (with a code, or none when a
      signal ended it), or it could not be started. */
  datatype Status = Exited(code: Option<int>) | SpawnError(kind: ErrorKind)

  /** The operating system, as far as cargo-dub observes it. */
  type System = (string, seq<string>) -> Status

  /** How a cargo-dub operation ends: the process exits with a code, or an
      error message is returned to `main`. */
  datatype Outcome = Exit(code: int) | Failed(message: string)

  /** `status.success()`: the process exited with code 0. */
  predicate Success(s: Status)
  {
    s == Exited(Some(0))
  }

  /** The message for a spawn failure. */
  function SpawnErrorMessage(kind: ErrorKind): string
  {
    match kind
    case NotFound => "dub executable not found or not accessible"
    case PermissionDenied => "Permission denied when executing dub"
    case WouldBlock => "System resources temporarily unavailable"
    case OtherKind => "Failed to execute dub"
  }

  /** What `execute_command` makes of a status: a child that ran ends
      cargo-dub with the child's exit code (`unwrap_or(1)` when it had none);
      one that could not start is an error. */
  function StatusOutcome(s: Status): (r: Outcome)
    ensures r.Exit? <==> s.Exited?
    ensures s.Exited? && s.code.Some? ==> r == Exit(s.code.value)
    ensures s.Exited? && s.code.None? ==> r == Exit(1)
    ensures s.SpawnError? ==> r == Failed(SpawnErrorMessage(s.kind))
  {
    match s
    case Exited(code) => Exit(if code.Some? then code.value else 1)
    case SpawnError(kind) => Failed(SpawnErrorMessage(kind))
  }

  /** The four spawn-failure kinds give four different messages, so the user
      can tell them apart. */
  lemma SpawnErrorMessagesDistinct(a: ErrorKind, b: ErrorKind)
    ensures SpawnErrorMessage(a) == SpawnErrorMessage(b) <==> a == b
  {
  }

  /** `execute_command`: run the command and hand back the outcome. */
  method ExecuteCommand(cmd: Command, os: System) returns (r: Outcome)
    ensures r == StatusOutcome(os(cmd.program, cmd.args))
  {
    var status := os(cmd.program, cmd.args);
    r := StatusOutcome(status);
  }

  /** What `main` makes of an outcome: the exit code, and what is written to
      standard error (empty when nothing is written). */
  datatype Termination = Termination(code: int, stderr: string)

  /** `main`: an exit code ends the program unchanged and silently; an error
      is written as one `eprintln!` line, `Error: ` and the message and a
      newline, and ends the program with 1. */
  function Terminate(r: Outcome): (t: Termination)
    ensures r.Exit? ==> t == Termination(r.code, [])
    ensures t.code == 0 ==> r == Exit(0)
    ensures r.Failed? <==> t.stderr != []
    ensures r.Failed? ==> t.code == 1 && t.stderr == "Error: " + r.message + "\n"
  {
    match r
    case Exit(code) => Termination(code, [])
    case Failed(message) => Termination(1, "Error: " + message + "\n")
  }
}
