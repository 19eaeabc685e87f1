/**
 * Processes as the launcher sees them. A process is identified by its argument
 * vector (program name first). The operating system is an oracle, `World`: it
 * answers PATH lookups and says how the process spawned for a given argv ends.
 * Every operation of the core returns a `Step`: its value together with the
 * argvs it spawned, in order, so that "no process was invoked" can be stated.
 */
module Process {
  import opened Wrappers

  type Argv = seq<string>

  /** How a spawned process ended. */
  datatype Status = NotStarted | Exited(code: int) | Signaled

  /** Go's `ProcessState.ExitCode()`: -1 when the process never ran or was killed by a signal. */
  function ExitCode(s: Status): int {
    match s
    case Exited(c) => c
    case _ => -1
  }

  /** The errors the Go core reports. */
  datatype Error =
    | ExecFailed(argv: Argv, status: Status)  // `cmd.Run()` failed: the process did not start or did not exit with 0
    | LookupFailed                            // "couldn't check existance of command in container"
    | Unavailable(tool: string)               // "<tool> is unavailable"
    | NotSpecified(osName: string)            // "trying to install a package that is not specified for <osName>"
    | DecodeFailed(text: string)              // `json.Unmarshal` rejected the text

  /** Go's `error` return: nil is `Ok(())`. */
  type Outcome = Result<(), Error>

  /** The outside world: the PATH of the host and the fate of every process. */
  datatype World = World(onPath: string -> bool, status: Argv -> Status)

  /** A value together with the argvs spawned to compute it. */
  datatype Step<T> = Step(value: T, trace: seq<Argv>)

  /** `exec.Command(argv[0], argv[1..]...).Run()` with the streams passed through. */
  function Spawn(w: World, argv: Argv): (r: Step<Outcome>)
    ensures r.trace == [argv]
    ensures r.value.Ok? <==> w.status(argv) == Exited(0)
    ensures r.value.Err? ==> r.value.error == ExecFailed(argv, w.status(argv))
  {
    var s := w.status(argv);
    Step(if s == Exited(0) then Ok(()) else Err(ExecFailed(argv, s)), [argv])
  }
}
