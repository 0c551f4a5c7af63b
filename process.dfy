/**
 * What the gateway sees of a child process. The spawn itself (waiting,
 * killing on timeout, decoding the captured bytes) happens inside the
 * operating system and Python's `subprocess`; the model receives its
 * result as an `Outcome` produced by an oracle passed in as a parameter.
 */
module Process {
  import opened PyText

  /** How one `subprocess.run(argv, capture_output=True, timeout=t)` ends. */
  datatype Outcome =
    | Exited(code: int, stdout: string, stderr: string) // the child ran and returned `code`
    | NotFound                                           // FileNotFoundError: no such executable
    | TimedOut                                           // subprocess.TimeoutExpired
    | Raised(detail: string)                             // any other exception; `detail` is str(e)
  {
    predicate Succeeded() {
      Exited? && code == 0
    }
  }

  /** The oracle for `subprocess.run`: argv and timeout in seconds to an outcome. */
  type Runner = (seq<string>, nat) -> Outcome

  /** How one `subprocess.Popen(argv)` ends; nothing is waited for. */
  datatype SpawnOutcome =
    | Spawned
    | SpawnNotFound
    | SpawnRaised(detail: string)

  /** The oracle for `subprocess.Popen`. */
  type Spawner = seq<string> -> SpawnOutcome

  /** The `(bool, str)` pair every gateway operation returns. */
  datatype Reply = Reply(ok: bool, text: string)

  /** What a failure report gets appended when the child wrote anything to
      stdout (the raw stdout is tested, the stripped one is shown). */
  function StdoutSection(stdout: string): string {
    "\nSaída (stdout):\n" + Strip(stdout)
  }

  /** The kinds of failure a reply's text reports. */
  datatype ErrorKind =
    | NonZeroExit(exitCode: int)
    | ToolNotFound
    | Timeout
    | Unexpected(cause: string)
    | UnknownShell(shellType: string)

  /** The failure kind a non-successful outcome stands for. */
  function KindOf(o: Outcome): (k: ErrorKind)
    requires !o.Succeeded()
    ensures !k.UnknownShell?
  {
    match o
    case Exited(code, _, _) => NonZeroExit(code)
    case NotFound => ToolNotFound
    case TimedOut => Timeout
    case Raised(detail) => Unexpected(detail)
  }
}
