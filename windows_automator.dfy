/**
 * The shell half of the command gateway
 * (assistant/tools/windows_automator.py): `execute_command` wraps a raw
 * argument list for `cmd /c` or `powershell -NoProfile -Command`, runs it
 * once with a timeout and classifies the outcome; directory and process
 * listing are built on it, and programs are launched without waiting.
 * The module is written as expressions and branches, so it is modelled
 * with functions.
 */
module WindowsAutomator {
  import opened Options
  import opened PyText
  import opened Process

  /** The timeout `execute_command` uses when its caller gives none. */
  const DefaultTimeout: nat := 30

  const CmdPrefix: seq<string> := ["cmd", "/c"]
  const PowerShellPrefix: seq<string> := ["powershell", "-NoProfile", "-Command"]

  /**
   * The full argument vector for a raw command under a shell type, or
   * `None` for a shell type other than "cmd" and "powershell". `Unwrap`
   * recovers both the shell type and the raw command unchanged.
   */
  function Wrap(command: seq<string>, shellType: string): (argv: Option<seq<string>>)
    ensures argv.Some? <==> shellType == "cmd" || shellType == "powershell"
    ensures argv.Some? ==> Unwrap(argv.value) == Some((shellType, command))
  {
    if shellType == "powershell" then
      assert (PowerShellPrefix + command)[..3] == PowerShellPrefix;
      assert (PowerShellPrefix + command)[3..] == command;
      Some(PowerShellPrefix + command)
    else if shellType == "cmd" then
      assert (CmdPrefix + command)[..2] == CmdPrefix;
      assert (CmdPrefix + command)[2..] == command;
      assert (CmdPrefix + command)[0] == "cmd" != PowerShellPrefix[0];
      Some(CmdPrefix + command)
    else
      None
  }

  /** Reads a wrapped argument vector back as its shell type and raw command. */
  function Unwrap(argv: seq<string>): Option<(string, seq<string>)> {
    if |argv| >= 3 && argv[..3] == PowerShellPrefix then Some(("powershell", argv[3..]))
    else if |argv| >= 2 && argv[..2] == CmdPrefix then Some(("cmd", argv[2..]))
    else None
  }

  /** The two wrappings share no token, so neither can be mistaken for the
      other whatever the raw commands are. */
  lemma WrappingsDisjoint(c1: seq<string>, c2: seq<string>)
    ensures forall t :: t in CmdPrefix ==> t !in PowerShellPrefix
    ensures Wrap(c1, "cmd") != Wrap(c2, "powershell")
  {
    assert Unwrap(Wrap(c1, "cmd").value) != Unwrap(Wrap(c2, "powershell").value);
  }

  // -----------------------------------------------------------------------
  // Messages of `execute_command`
  // -----------------------------------------------------------------------

  const ExitHead := "Erro ao executar comando (código "
  const TimeoutHead := "Erro: O comando excedeu o tempo limite de "
  const UnexpectedHead := "Erro inesperado ao executar o comando: "
  const UnknownShellHead := "Tipo de shell desconhecido: "

  /** The first part of the report of a non-zero exit: code and stripped stderr. */
  function ExitReport(code: int, stderr: string): string {
    ExitHead + Decimal(code) + "):\n" + Strip(stderr)
  }

  function NotFoundMessage(shellType: string): string {
    "Erro: '" + shellType + "' não encontrado. Verifique a instalação e o PATH."
  }

  function TimeoutMessage(timeout: nat): string {
    TimeoutHead + Decimal(timeout) + " segundos."
  }

  /**
   * The reply `execute_command` gives for the outcome of a wrapped command:
   * success exactly on exit code 0, with the stripped stdout; otherwise a
   * report of the failure, and no failure escapes as an exception.
   */
  function ShellReply(o: Outcome, shellType: string, timeout: nat): (r: Reply)
    ensures r.ok <==> o.Succeeded()
    ensures o.Succeeded() ==> r.text == Strip(o.stdout)
    ensures o.Exited? && o.code != 0 ==> StartsWith(r.text, ExitReport(o.code, o.stderr))
    ensures o.Exited? && o.code != 0 && |o.stdout| > 0 ==> EndsWith(r.text, StdoutSection(o.stdout))
    ensures o.Exited? && o.code != 0 && |o.stdout| == 0 ==> r.text == ExitReport(o.code, o.stderr)
  {
    match o
    case Exited(code, stdout, stderr) =>
      if code == 0 then Reply(true, Strip(stdout))
      else Reply(false, ExitReport(code, stderr) + if |stdout| > 0 then StdoutSection(stdout) else "")
    case NotFound => Reply(false, NotFoundMessage(shellType))
    case TimedOut => Reply(false, TimeoutMessage(timeout))
    case Raised(detail) => Reply(false, UnexpectedHead + detail)
  }

  /**
   * `execute_command`: "cmd" and "powershell" run their wrapping of the raw
   * command once with the timeout; any other shell type is refused with a
   * reply of its own and nothing is run.
   */
  function ExecuteCommand(command: seq<string>, shellType: string, timeout: nat, run: Runner): (r: Reply)
    ensures shellType == "cmd" ==>
      r == ShellReply(run(["cmd", "/c"] + command, timeout), shellType, timeout)
    ensures shellType == "powershell" ==>
      r == ShellReply(run(["powershell", "-NoProfile", "-Command"] + command, timeout), shellType, timeout)
    ensures shellType != "cmd" && shellType != "powershell" ==>
      r == Reply(false, "Tipo de shell desconhecido: " + shellType)
  {
    match Wrap(command, shellType)
    case None => Reply(false, UnknownShellHead + shellType)
    case Some(argv) => ShellReply(run(argv, timeout), shellType, timeout)
  }

  /** A refused shell type gives the same reply whatever the runner does:
      nothing is run. */
  lemma UnknownShellRunsNothing(command: seq<string>, shellType: string, timeout: nat, run1: Runner, run2: Runner)
    requires shellType != "cmd" && shellType != "powershell"
    ensures !ExecuteCommand(command, shellType, timeout, run1).ok
    ensures ExecuteCommand(command, shellType, timeout, run1) == ExecuteCommand(command, shellType, timeout, run2)
  {
  }

  /** Reads a failure reply's text back as the kind of failure it reports. */
  function ShellDiagnose(text: string): Option<ErrorKind> {
    if StartsWith(text, UnknownShellHead) then
      Some(UnknownShell(text[|UnknownShellHead|..]))
    else if StartsWith(text, UnexpectedHead) then
      Some(Unexpected(text[|UnexpectedHead|..]))
    else if StartsWith(text, TimeoutHead) then
      Some(Timeout)
    else if StartsWith(text, "Erro: '") then
      Some(ToolNotFound)
    else if StartsWith(text, ExitHead) then
      match ParseInt(TakeUntil(text[|ExitHead|..], ')'))
      case Some(code) => Some(NonZeroExit(code))
      case None => None
    else
      None
  }

  /** The kind of failure `execute_command` reports for a call. */
  function CommandFailure(command: seq<string>, shellType: string, timeout: nat, run: Runner): Option<ErrorKind> {
    match Wrap(command, shellType)
    case None => Some(UnknownShell(shellType))
    case Some(argv) => if run(argv, timeout).Succeeded() then None else Some(KindOf(run(argv, timeout)))
  }

  /**
   * A failed `execute_command` reply is never ambiguous: its text names the
   * refused shell type, or which failure the child met, with the exit code
   * and the exception's text recovered exactly.
   */
  lemma ShellDiagnoseRecoversKind(command: seq<string>, shellType: string, timeout: nat, run: Runner)
    ensures !ExecuteCommand(command, shellType, timeout, run).ok <==> CommandFailure(command, shellType, timeout, run).Some?
    ensures !ExecuteCommand(command, shellType, timeout, run).ok ==>
      ShellDiagnose(ExecuteCommand(command, shellType, timeout, run).text) == CommandFailure(command, shellType, timeout, run)
  {
    match Wrap(command, shellType)
    case None =>
      DiagnoseUnknownShell(shellType);
    case Some(argv) =>
      var o := run(argv, timeout);
      if !o.Succeeded() {
        ReplyDiagnosis(o, shellType, timeout);
      }
  }

  lemma ReplyDiagnosis(o: Outcome, shellType: string, timeout: nat)
    requires !o.Succeeded()
    ensures ShellDiagnose(ShellReply(o, shellType, timeout).text) == Some(KindOf(o))
  {
    if o.Exited? {
      DiagnoseExit(o.code, o.stdout, o.stderr, shellType, timeout);
    } else if o.NotFound? {
      DiagnoseNotFound(shellType);
    } else if o.TimedOut? {
      DiagnoseTimeout(timeout);
    } else {
      DiagnoseUnexpected(o.detail);
    }
  }

  lemma DiagnoseUnknownShell(shellType: string)
    ensures ShellDiagnose(UnknownShellHead + shellType) == Some(UnknownShell(shellType))
  {
    var text := UnknownShellHead + shellType;
    assert StartsWith(text, UnknownShellHead);
    assert text[|UnknownShellHead|..] == shellType;
  }

  lemma DiagnoseExit(code: int, stdout: string, stderr: string, shellType: string, timeout: nat)
    requires code != 0
    ensures ShellDiagnose(ShellReply(Exited(code, stdout, stderr), shellType, timeout).text) == Some(NonZeroExit(code))
  {
    var h, d, l, e := ExitHead, Decimal(code), "):\n", Strip(stderr);
    var x := if |stdout| > 0 then StdoutSection(stdout) else "";
    assert ShellReply(Exited(code, stdout, stderr), shellType, timeout).text == h + d + l + e + x;
    Assoc(h + d + l, e, x);
    Assoc(h + d, l, e + x);
    Assoc(h, d, l + (e + x));
    DiagnoseExitReport(code, e + x);
  }

  /** The exit code is read back from between the report's head and the
      first closing parenthesis, whatever follows it. */
  lemma DiagnoseExitReport(code: int, rest: string)
    ensures ShellDiagnose(ExitHead + (Decimal(code) + ("):\n" + rest))) == Some(NonZeroExit(code))
  {
    var text := ExitHead + (Decimal(code) + ("):\n" + rest));
    assert StartsWith(text, ExitHead);
    StartsWithEither(text, ExitHead, UnknownShellHead, 0);
    StartsWithEither(text, ExitHead, UnexpectedHead, 5);
    StartsWithEither(text, ExitHead, TimeoutHead, 4);
    StartsWithEither(text, ExitHead, "Erro: '", 4);
    assert text[|ExitHead|..] == Decimal(code) + ("):\n" + rest);
    TakeUntilStops(Decimal(code), ')', "):\n" + rest);
    DecimalRoundTrip(code);
  }

  lemma DiagnoseNotFound(shellType: string)
    ensures ShellDiagnose(NotFoundMessage(shellType)) == Some(ToolNotFound)
  {
    var text := NotFoundMessage(shellType);
    assert StartsWith(text, "Erro: '");
    StartsWithEither(text, "Erro: '", UnknownShellHead, 0);
    StartsWithEither(text, "Erro: '", UnexpectedHead, 4);
    StartsWithEither(text, "Erro: '", TimeoutHead, 6);
  }

  lemma DiagnoseTimeout(timeout: nat)
    ensures ShellDiagnose(TimeoutMessage(timeout)) == Some(Timeout)
  {
    var text := TimeoutMessage(timeout);
    assert StartsWith(text, TimeoutHead);
    StartsWithEither(text, TimeoutHead, UnknownShellHead, 0);
    StartsWithEither(text, TimeoutHead, UnexpectedHead, 4);
  }

  lemma DiagnoseUnexpected(detail: string)
    ensures ShellDiagnose(UnexpectedHead + detail) == Some(Unexpected(detail))
  {
    var text := UnexpectedHead + detail;
    assert StartsWith(text, UnexpectedHead);
    StartsWithEither(text, UnexpectedHead, UnknownShellHead, 0);
    assert text[|UnexpectedHead|..] == detail;
  }

  /**
   * Each failure message names what the caller needs: the exit code and
   * stripped stderr of a non-zero exit, the shell type that was not found,
   * the timeout in seconds, the exception's own text.
   */
  lemma ShellFailureMentions(o: Outcome, shellType: string, timeout: nat)
    requires !o.Succeeded()
    ensures o.Exited? ==> Contains(ShellReply(o, shellType, timeout).text, Decimal(o.code))
    ensures o.Exited? ==> Contains(ShellReply(o, shellType, timeout).text, Strip(o.stderr))
    ensures o.NotFound? ==> Contains(ShellReply(o, shellType, timeout).text, shellType)
    ensures o.TimedOut? ==> Contains(ShellReply(o, shellType, timeout).text, Decimal(timeout) + " segundos")
    ensures o.Raised? ==> Contains(ShellReply(o, shellType, timeout).text, o.detail)
  {
    var text := ShellReply(o, shellType, timeout).text;
    if o.Exited? {
      ReportMentions(o.code, o.stderr);
      ContainsPrefix(text, ExitReport(o.code, o.stderr), Decimal(o.code));
      ContainsPrefix(text, ExitReport(o.code, o.stderr), Strip(o.stderr));
    } else if o.NotFound? {
      ContainsInfix("Erro: '", shellType, "' não encontrado. Verifique a instalação e o PATH.");
    } else if o.TimedOut? {
      TimeoutMentions(timeout);
    } else {
      assert text == UnexpectedHead + o.detail + "";
      ContainsInfix(UnexpectedHead, o.detail, "");
    }
  }

  lemma ReportMentions(code: int, stderr: string)
    ensures Contains(ExitReport(code, stderr), Decimal(code))
    ensures Contains(ExitReport(code, stderr), Strip(stderr))
  {
    var h, d, l, e := ExitHead, Decimal(code), "):\n", Strip(stderr);
    Assoc(h + d, l, e);
    ContainsInfix(h, d, l + e);
    assert ExitReport(code, stderr) == h + d + l + e + "";
    ContainsInfix(h + d + l, e, "");
  }

  lemma TimeoutMentions(timeout: nat)
    ensures Contains(TimeoutMessage(timeout), Decimal(timeout) + " segundos")
  {
    var d := Decimal(timeout);
    Assoc(TimeoutHead, d, " segundos.");
    assert " segundos." == " segundos" + ".";
    Assoc(d, " segundos", ".");
    Assoc(TimeoutHead, d + " segundos", ".");
    assert TimeoutMessage(timeout) == TimeoutHead + (d + " segundos") + ".";
    ContainsInfix(TimeoutHead, d + " segundos", ".");
  }

  // -----------------------------------------------------------------------
  // Operations built on `execute_command`
  // -----------------------------------------------------------------------

  /** `list_directory_windows`: `dir <path>` under `cmd` with the default
      timeout; the path is passed through unchanged. */
  function ListDirectory(path: string, run: Runner): (r: Reply)
    ensures r == ShellReply(run(["cmd", "/c", "dir", path], 30), "cmd", 30)
  {
    assert CmdPrefix + ["dir", path] == ["cmd", "/c", "dir", path];
    ExecuteCommand(["dir", path], "cmd", DefaultTimeout, run)
  }

  const GetProcessArgv: seq<string> := ["powershell", "-NoProfile", "-Command", "Get-Process"]
  const TasklistArgv: seq<string> := ["cmd", "/c", "tasklist"]

  /**
   * `list_processes_windows`: `Get-Process` under PowerShell first; its
   * success is returned as it is and `tasklist` is not consulted; otherwise
   * the reply is exactly that of `tasklist` under `cmd`.
   */
  function ListProcesses(run: Runner): (r: Reply)
    ensures r.ok <==> run(GetProcessArgv, 30).Succeeded() || run(TasklistArgv, 30).Succeeded()
    ensures run(GetProcessArgv, 30).Succeeded() ==> r == Reply(true, Strip(run(GetProcessArgv, 30).stdout))
    ensures !run(GetProcessArgv, 30).Succeeded() ==> r == ShellReply(run(TasklistArgv, 30), "cmd", 30)
  {
    assert PowerShellPrefix + ["Get-Process"] == GetProcessArgv;
    assert CmdPrefix + ["tasklist"] == TasklistArgv;
    var first := ExecuteCommand(["Get-Process"], "powershell", DefaultTimeout, run);
    if first.ok then Reply(true, first.text)
    else ExecuteCommand(["tasklist"], "cmd", DefaultTimeout, run)
  }

  /** Only the two listed runs matter, and the second only after the first failed. */
  lemma ListProcessesAttempts(run1: Runner, run2: Runner)
    requires run1(GetProcessArgv, 30) == run2(GetProcessArgv, 30)
    requires run1(GetProcessArgv, 30).Succeeded() || run1(TasklistArgv, 30) == run2(TasklistArgv, 30)
    ensures ListProcesses(run1) == ListProcesses(run2)
  {
  }

  // -----------------------------------------------------------------------
  // Launching without waiting
  // -----------------------------------------------------------------------

  /** The argument vector `start_program_windows` spawns: `start` under `cmd`,
      with an empty window title before the program. */
  function LaunchArgv(program: string): (argv: seq<string>)
    ensures Wrap(["start", "", program], "cmd") == Some(argv)
  {
    assert CmdPrefix + ["start", "", program] == ["cmd", "/c", "start", "", program];
    ["cmd", "/c", "start", "", program]
  }

  function LaunchedMessage(program: string): string {
    "Comando para iniciar '" + program + "' enviado."
  }

  /**
   * `start_program_windows`: spawns `cmd /c start "" <program>` and does not
   * wait. Success only means the shell process was created; it names the
   * program. A missing `cmd` and any other spawn error are failures.
   */
  function StartProgram(program: string, spawn: Spawner): (r: Reply)
    ensures r.ok <==> spawn(LaunchArgv(program)) == Spawned
    ensures r.ok ==> Contains(r.text, program)
    ensures spawn(LaunchArgv(program)) == SpawnNotFound ==> Contains(r.text, "'cmd' não encontrado")
    ensures spawn(LaunchArgv(program)).SpawnRaised? ==>
      StartsWith(r.text, "Erro inesperado") && EndsWith(r.text, spawn(LaunchArgv(program)).detail)
  {
    match spawn(LaunchArgv(program))
    case Spawned =>
      ContainsInfix("Comando para iniciar '", program, "' enviado.");
      Reply(true, LaunchedMessage(program))
    case SpawnNotFound =>
      ContainsInfix("Erro: ", "'cmd' não encontrado", ". Verifique a instalação e o PATH.");
      Reply(false, "Erro: " + "'cmd' não encontrado" + ". Verifique a instalação e o PATH.")
    case SpawnRaised(detail) =>
      Reply(false, "Erro inesperado ao tentar iniciar o programa: " + detail)
  }
}
