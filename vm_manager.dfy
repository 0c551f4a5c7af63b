/**
 * The virtual-machine half of the command gateway
 * (assistant/tools/vm_manager.py): each operation builds the argument
 * vector for `VBoxManage` (VirtualBox) or `vmrun` (VMware), picks its own
 * timeout, and hands both to one helper that runs the tool and turns the
 * child's outcome into a `(bool, str)` reply.
 *
 * The source builds most argument vectors step by step with `append` and
 * `extend`, and grows the failure message with `+=`; the methods below do
 * the same on local sequences and are proved against the functions
 * `Command` and `VmReply`, about which the lemmas state what the source
 * promises.
 */
module VmManager {
  import opened Options
  import opened PyText
  import opened Process

  /** The timeout `_execute_vm_command` uses when its caller gives none. */
  const DefaultTimeout: nat := 60

  /** The virtualization operations the module offers, with their arguments. */
  datatype VmOperation =
    | VBoxList
    | VBoxStart(vm: string, headless: bool)
    | VBoxStop(vm: string, force: bool)
    | VmwareList
    | VmwareStart(vmx: string, nogui: bool)
    | VmwareStop(vmx: string, force: bool)
    | VmwareGuestRun(vmx: string, user: string, password: string, program: string)
  {
    predicate IsVirtualBox() {
      VBoxList? || VBoxStart? || VBoxStop?
    }
  }

  /** The control tool of the operation's backend, also used in messages. */
  function Tool(op: VmOperation): string {
    if op.IsVirtualBox() then "VBoxManage" else "vmrun"
  }

  /**
   * The argument vector each operation runs. The identifier, the `.vmx`
   * path and the guest credentials are passed through unchanged, each at a
   * fixed position, and each boolean flag selects one token; `Decode`
   * reads all of them back.
   */
  function Command(op: VmOperation): (argv: seq<string>)
    ensures |argv| > 0 && argv[0] == Tool(op)
    ensures Decode(argv) == Some(op)
  {
    match op
    case VBoxList => ["VBoxManage", "list", "vms"]
    case VBoxStart(vm, headless) =>
      ["VBoxManage", "startvm", vm, "--type", if headless then "headless" else "gui"]
    case VBoxStop(vm, force) =>
      ["VBoxManage", "controlvm", vm, if force then "poweroff" else "acpipowerbutton"]
    case VmwareList => ["vmrun", "list"]
    case VmwareStart(vmx, nogui) =>
      ["vmrun", "-T", if nogui then "ws-nogui" else "ws", "start", vmx, if nogui then "nogui" else "gui"]
    case VmwareStop(vmx, force) =>
      ["vmrun", "-T", "ws", "stop", vmx, if force then "hard" else "soft"]
    case VmwareGuestRun(vmx, user, password, program) =>
      ["vmrun", "-T", "ws", "-gu", user, "-gp", password, "runProgramInGuest", vmx, "-activeWindow", program]
  }

  /** Reads an argument vector back as the operation that produces it, if any. */
  function Decode(argv: seq<string>): Option<VmOperation> {
    if argv == ["VBoxManage", "list", "vms"] then
      Some(VBoxList)
    else if |argv| == 5 && argv[0] == "VBoxManage" && argv[1] == "startvm" && argv[3] == "--type"
            && (argv[4] == "headless" || argv[4] == "gui") then
      Some(VBoxStart(argv[2], argv[4] == "headless"))
    else if |argv| == 4 && argv[0] == "VBoxManage" && argv[1] == "controlvm"
            && (argv[3] == "poweroff" || argv[3] == "acpipowerbutton") then
      Some(VBoxStop(argv[2], argv[3] == "poweroff"))
    else if argv == ["vmrun", "list"] then
      Some(VmwareList)
    else if |argv| == 6 && argv[0] == "vmrun" && argv[1] == "-T" && argv[3] == "start"
            && ((argv[2] == "ws-nogui" && argv[5] == "nogui") || (argv[2] == "ws" && argv[5] == "gui")) then
      Some(VmwareStart(argv[4], argv[5] == "nogui"))
    else if |argv| == 6 && argv[0] == "vmrun" && argv[1] == "-T" && argv[2] == "ws" && argv[3] == "stop"
            && (argv[5] == "hard" || argv[5] == "soft") then
      Some(VmwareStop(argv[4], argv[5] == "hard"))
    else if |argv| == 11 && argv[0] == "vmrun" && argv[1] == "-T" && argv[2] == "ws" && argv[3] == "-gu"
            && argv[5] == "-gp" && argv[7] == "runProgramInGuest" && argv[9] == "-activeWindow" then
      Some(VmwareGuestRun(argv[8], argv[4], argv[6], argv[10]))
    else
      None
  }

  /** Two different operations never run the same argument vector. */
  lemma CommandInjective(op1: VmOperation, op2: VmOperation)
    requires Command(op1) == Command(op2)
    ensures op1 == op2
  {
    assert Decode(Command(op1)) == Some(op1);
  }

  // -----------------------------------------------------------------------
  // Messages of `_execute_vm_command`
  // -----------------------------------------------------------------------

  /** The first part of the report of a non-zero exit: tool, code, stripped stderr. */
  function ExitReport(tool: string, code: int, stderr: string): string {
    ExitHead(tool) + Decimal(code) + "):\n" + Strip(stderr)
  }

  function ExitHead(tool: string): string {
    "Erro ao executar " + tool + " (código "
  }

  function NotFoundMessage(tool: string): string {
    "Erro: Ferramenta '" + tool + "' não encontrada. Verifique a instalação e o PATH."
  }

  function TimeoutMessage(tool: string, timeout: nat): string {
    "Erro: O comando " + tool + " excedeu o tempo limite de " + Decimal(timeout) + " segundos."
  }

  function UnexpectedHead(tool: string): string {
    "Erro inesperado ao executar " + tool + ": "
  }

  /**
   * The reply `_execute_vm_command` gives for an outcome: success exactly
   * on exit code 0, with the stripped stdout; otherwise a report of the
   * failure, and no failure escapes as an exception.
   */
  function VmReply(o: Outcome, tool: string, timeout: nat): (r: Reply)
    ensures r.ok <==> o.Succeeded()
    ensures o.Succeeded() ==> r.text == Strip(o.stdout)
    ensures o.Exited? && o.code != 0 ==> StartsWith(r.text, ExitReport(tool, o.code, o.stderr))
    ensures o.Exited? && o.code != 0 && |o.stdout| > 0 ==> EndsWith(r.text, StdoutSection(o.stdout))
    ensures o.Exited? && o.code != 0 && |o.stdout| == 0 ==> r.text == ExitReport(tool, o.code, o.stderr)
  {
    match o
    case Exited(code, stdout, stderr) =>
      if code == 0 then Reply(true, Strip(stdout))
      else Reply(false, ExitReport(tool, code, stderr) + if |stdout| > 0 then StdoutSection(stdout) else "")
    case NotFound => Reply(false, NotFoundMessage(tool))
    case TimedOut => Reply(false, TimeoutMessage(tool, timeout))
    case Raised(detail) => Reply(false, UnexpectedHead(tool) + detail)
  }

  /** Reads a failure reply's text back as the kind of failure it reports. */
  function VmDiagnose(text: string, tool: string): Option<ErrorKind> {
    if StartsWith(text, UnexpectedHead(tool)) then
      Some(Unexpected(text[|UnexpectedHead(tool)|..]))
    else if StartsWith(text, "Erro: Ferramenta '") then
      Some(ToolNotFound)
    else if StartsWith(text, "Erro: O comando ") then
      Some(Timeout)
    else if StartsWith(text, ExitHead(tool)) then
      match ParseInt(TakeUntil(text[|ExitHead(tool)|..], ')'))
      case Some(code) => Some(NonZeroExit(code))
      case None => None
    else
      None
  }

  /**
   * A failure reply is never ambiguous: its text names which failure
   * happened, with the exit code of a non-zero exit and the detail of an
   * unexpected exception recovered exactly.
   */
  lemma VmDiagnoseRecoversKind(o: Outcome, tool: string, timeout: nat)
    requires !o.Succeeded()
    ensures VmDiagnose(VmReply(o, tool, timeout).text, tool) == Some(KindOf(o))
  {
    if o.Exited? {
      DiagnoseExit(o.code, o.stdout, o.stderr, tool, timeout);
    } else if o.NotFound? {
      DiagnoseNotFound(tool);
    } else if o.TimedOut? {
      DiagnoseTimeout(tool, timeout);
    } else {
      DiagnoseUnexpected(tool, o.detail);
    }
  }

  lemma DiagnoseExit(code: int, stdout: string, stderr: string, tool: string, timeout: nat)
    requires code != 0
    ensures VmDiagnose(VmReply(Exited(code, stdout, stderr), tool, timeout).text, tool) == Some(NonZeroExit(code))
  {
    var h, d, l, e := ExitHead(tool), Decimal(code), "):\n", Strip(stderr);
    var x := if |stdout| > 0 then StdoutSection(stdout) else "";
    assert VmReply(Exited(code, stdout, stderr), tool, timeout).text == h + d + l + e + x;
    Assoc(h + d + l, e, x);
    Assoc(h + d, l, e + x);
    Assoc(h, d, l + (e + x));
    DiagnoseExitReport(tool, code, e + x);
  }

  /** The exit code is read back from between the report's head and the
      first closing parenthesis, whatever follows it. */
  lemma DiagnoseExitReport(tool: string, code: int, rest: string)
    ensures VmDiagnose(ExitHead(tool) + (Decimal(code) + ("):\n" + rest)), tool) == Some(NonZeroExit(code))
  {
    var head := ExitHead(tool);
    var text := head + (Decimal(code) + ("):\n" + rest));
    assert StartsWith(text, head);
    StartsWithEither(text, head, UnexpectedHead(tool), 5);
    StartsWithEither(text, head, "Erro: Ferramenta '", 4);
    StartsWithEither(text, head, "Erro: O comando ", 4);
    assert text[|head|..] == Decimal(code) + ("):\n" + rest);
    TakeUntilStops(Decimal(code), ')', "):\n" + rest);
    DecimalRoundTrip(code);
  }

  lemma DiagnoseNotFound(tool: string)
    ensures VmDiagnose(NotFoundMessage(tool), tool) == Some(ToolNotFound)
  {
    var text := NotFoundMessage(tool);
    assert StartsWith(text, "Erro: Ferramenta '");
    StartsWithEither(text, "Erro: Ferramenta '", UnexpectedHead(tool), 4);
  }

  lemma DiagnoseTimeout(tool: string, timeout: nat)
    ensures VmDiagnose(TimeoutMessage(tool, timeout), tool) == Some(Timeout)
  {
    var text := TimeoutMessage(tool, timeout);
    assert StartsWith(text, "Erro: O comando ");
    StartsWithEither(text, "Erro: O comando ", UnexpectedHead(tool), 4);
    StartsWithEither(text, "Erro: O comando ", "Erro: Ferramenta '", 6);
  }

  lemma DiagnoseUnexpected(tool: string, detail: string)
    ensures VmDiagnose(UnexpectedHead(tool) + detail, tool) == Some(Unexpected(detail))
  {
    var text := UnexpectedHead(tool) + detail;
    assert StartsWith(text, UnexpectedHead(tool));
    assert text[|UnexpectedHead(tool)|..] == detail;
  }

  /**
   * Each failure message names what the caller needs: the tool and the
   * exit code and stripped stderr of a non-zero exit; the tool when it is
   * missing; the tool and the timeout in seconds when the time ran out;
   * the exception's own text when anything else went wrong.
   */
  lemma VmFailureMentions(o: Outcome, tool: string, timeout: nat)
    requires !o.Succeeded()
    ensures Contains(VmReply(o, tool, timeout).text, tool)
    ensures o.Exited? ==> Contains(VmReply(o, tool, timeout).text, Decimal(o.code))
    ensures o.Exited? ==> Contains(VmReply(o, tool, timeout).text, Strip(o.stderr))
    ensures o.TimedOut? ==> Contains(VmReply(o, tool, timeout).text, Decimal(timeout) + " segundos")
    ensures o.Raised? ==> Contains(VmReply(o, tool, timeout).text, o.detail)
  {
    var text := VmReply(o, tool, timeout).text;
    if o.Exited? {
      var report := ExitReport(tool, o.code, o.stderr);
      ReportMentionsTool(tool, o.code, o.stderr);
      ReportMentionsCode(tool, o.code, o.stderr);
      ReportMentionsStderr(tool, o.code, o.stderr);
      ContainsPrefix(text, report, tool);
      ContainsPrefix(text, report, Decimal(o.code));
      ContainsPrefix(text, report, Strip(o.stderr));
    } else if o.NotFound? {
      NotFoundMentions(tool);
    } else if o.TimedOut? {
      TimeoutMentions(tool, timeout);
    } else {
      UnexpectedMentions(tool, o.detail);
    }
  }

  lemma ReportMentionsTool(tool: string, code: int, stderr: string)
    ensures Contains(ExitReport(tool, code, stderr), tool)
  {
    var h, d, l, e := ExitHead(tool), Decimal(code), "):\n", Strip(stderr);
    Assoc(h + d, l, e);
    Assoc(h, d, l + e);
    assert StartsWith(ExitReport(tool, code, stderr), h);
    ContainsInfix("Erro ao executar ", tool, " (código ");
    ContainsPrefix(ExitReport(tool, code, stderr), h, tool);
  }

  lemma ReportMentionsCode(tool: string, code: int, stderr: string)
    ensures Contains(ExitReport(tool, code, stderr), Decimal(code))
  {
    var h, d, l, e := ExitHead(tool), Decimal(code), "):\n", Strip(stderr);
    Assoc(h + d, l, e);
    ContainsInfix(h, d, l + e);
  }

  lemma ReportMentionsStderr(tool: string, code: int, stderr: string)
    ensures Contains(ExitReport(tool, code, stderr), Strip(stderr))
  {
    var head := ExitHead(tool) + Decimal(code) + "):\n";
    assert ExitReport(tool, code, stderr) == head + Strip(stderr) + "";
    ContainsInfix(head, Strip(stderr), "");
  }

  lemma NotFoundMentions(tool: string)
    ensures Contains(NotFoundMessage(tool), tool)
  {
    ContainsInfix("Erro: Ferramenta '", tool, "' não encontrada. Verifique a instalação e o PATH.");
  }

  lemma TimeoutMentions(tool: string, timeout: nat)
    ensures Contains(TimeoutMessage(tool, timeout), tool)
    ensures Contains(TimeoutMessage(tool, timeout), Decimal(timeout) + " segundos")
  {
    var text := TimeoutMessage(tool, timeout);
    var after := " excedeu o tempo limite de " + Decimal(timeout) + " segundos.";
    assert text == "Erro: O comando " + tool + after;
    ContainsInfix("Erro: O comando ", tool, after);
    var before := "Erro: O comando " + tool + " excedeu o tempo limite de ";
    assert text == before + (Decimal(timeout) + " segundos") + ".";
    ContainsInfix(before, Decimal(timeout) + " segundos", ".");
  }

  lemma UnexpectedMentions(tool: string, detail: string)
    ensures Contains(UnexpectedHead(tool) + detail, tool)
    ensures Contains(UnexpectedHead(tool) + detail, detail)
  {
    assert UnexpectedHead(tool) + detail == "Erro inesperado ao executar " + tool + (": " + detail);
    ContainsInfix("Erro inesperado ao executar ", tool, ": " + detail);
    assert UnexpectedHead(tool) + detail == UnexpectedHead(tool) + detail + "";
    ContainsInfix(UnexpectedHead(tool), detail, "");
  }

  /** Whitespace-only stdout is still reported: the test is on the raw
      stdout, before stripping. */
  lemma WhitespaceStdoutStillReported(tool: string, code: int, stdout: string, stderr: string, timeout: nat)
    requires code != 0 && |stdout| > 0 && AllSpace(stdout)
    ensures EndsWith(VmReply(Exited(code, stdout, stderr), tool, timeout).text, "\nSaída (stdout):\n")
  {
    StripEmptyIff(stdout);
  }

  /** A VirtualBox listing that prints one machine and a newline and exits
      with 0 succeeds with that line, newline stripped. */
  lemma ListingScenario()
    ensures VmReply(Exited(0, "\"MyVM\" {uuid}\n", ""), "VBoxManage", DefaultTimeout)
            == Reply(true, "\"MyVM\" {uuid}")
  {
    assert TrimLeft("\"MyVM\" {uuid}\n") == "\"MyVM\" {uuid}\n";
    assert TrimRight("\"MyVM\" {uuid}\n") == TrimRight("\"MyVM\" {uuid}");
  }

  /** A start of a missing `.vmx` that exits with 1 and reports on stderr is
      read back as exit code 1, and the stderr text is in the message.
      The stderr text is a fixed input of the scenario; it is passed as a
      parameter only so that the solver does not unfold `Strip` over the
      literal. */
  lemma MissingVmxScenario(stderr: string)
    requires stderr == "Error: file not found"
    ensures !VmReply(Exited(1, "", stderr), "vmrun", 120).ok
    ensures VmDiagnose(VmReply(Exited(1, "", stderr), "vmrun", 120).text, "vmrun") == Some(NonZeroExit(1))
    ensures Contains(VmReply(Exited(1, "", stderr), "vmrun", 120).text, stderr)
  {
    StripKeeps(stderr);
    var o := Exited(1, "", stderr);
    VmDiagnoseRecoversKind(o, "vmrun", 120);
    VmFailureMentions(o, "vmrun", 120);
  }

  // -----------------------------------------------------------------------
  // The runner and the operations
  // -----------------------------------------------------------------------

  /**
   * `_execute_vm_command`: runs `command` once with the given timeout and
   * classifies the outcome.
   */
  method ExecuteVmCommand(command: seq<string>, tool: string, timeout: nat, run: Runner)
    returns (r: Reply)
    ensures r == VmReply(run(command, timeout), tool, timeout)
  {
    var result := run(command, timeout);
    match result
    case Exited(code, stdout, stderr) =>
      if code == 0 {
        return Reply(true, Strip(stdout));
      }
      var message := ExitHead(tool) + Decimal(code) + "):\n" + Strip(stderr);
      if |stdout| > 0 {
        message := message + StdoutSection(stdout);
      }
      return Reply(false, message);
    case NotFound =>
      return Reply(false, NotFoundMessage(tool));
    case TimedOut =>
      return Reply(false, TimeoutMessage(tool, timeout));
    case Raised(detail) =>
      return Reply(false, UnexpectedHead(tool) + detail);
  }

  /** `list_vbox_vms`: `VBoxManage list vms` with the default timeout. */
  method ListVBoxVms(run: Runner) returns (r: Reply)
    ensures r == VmReply(run(Command(VBoxList), 60), "VBoxManage", 60)
  {
    var command := ["VBoxManage", "list", "vms"];
    r := ExecuteVmCommand(command, "VBoxManage", DefaultTimeout, run);
  }

  /** `start_vbox_vm`: `VBoxManage startvm <vm> --type headless|gui`, 120 seconds. */
  method StartVBoxVm(vm: string, headless: bool, run: Runner) returns (r: Reply)
    ensures r == VmReply(run(Command(VBoxStart(vm, headless)), 120), "VBoxManage", 120)
  {
    var command := ["VBoxManage", "startvm", vm];
    if headless {
      command := command + ["--type", "headless"];
    } else {
      command := command + ["--type", "gui"];
    }
    assert command == Command(VBoxStart(vm, headless));
    r := ExecuteVmCommand(command, "VBoxManage", 120, run);
  }

  /** `stop_vbox_vm`: `VBoxManage controlvm <vm> poweroff|acpipowerbutton`, 90 seconds. */
  method StopVBoxVm(vm: string, force: bool, run: Runner) returns (r: Reply)
    ensures r == VmReply(run(Command(VBoxStop(vm, force)), 90), "VBoxManage", 90)
  {
    var command := ["VBoxManage", "controlvm", vm];
    if force {
      command := command + ["poweroff"];
    } else {
      command := command + ["acpipowerbutton"];
    }
    assert command == Command(VBoxStop(vm, force));
    r := ExecuteVmCommand(command, "VBoxManage", 90, run);
  }

  /** `list_vmware_running_vms`: `vmrun list` with the default timeout. */
  method ListVmwareRunningVms(run: Runner) returns (r: Reply)
    ensures r == VmReply(run(Command(VmwareList), 60), "vmrun", 60)
  {
    var command := ["vmrun", "list"];
    r := ExecuteVmCommand(command, "vmrun", DefaultTimeout, run);
  }

  /**
   * `start_vmware_vm` as its authors evidently meant it:
   * `vmrun -T ws-nogui|ws start <vmx> nogui|gui`, 120 seconds. The source
   * passes `-T` and the target type to one `append` call, which raises; see
   * `StartVmwareVmAsWritten`.
   */
  method StartVmwareVm(vmx: string, nogui: bool, run: Runner) returns (r: Reply)
    ensures r == VmReply(run(Command(VmwareStart(vmx, nogui)), 120), "vmrun", 120)
  {
    var command := ["vmrun"];
    if nogui {
      command := command + ["-T", "ws-nogui"];
    } else {
      command := command + ["-T", "ws"];
    }
    command := command + ["start", vmx];
    if nogui {
      command := command + ["nogui"];
    } else {
      command := command + ["gui"];
    }
    assert command == Command(VmwareStart(vmx, nogui));
    r := ExecuteVmCommand(command, "vmrun", 120, run);
  }

  /** `stop_vmware_vm`: `vmrun -T ws stop <vmx> hard|soft`, 90 seconds. */
  method StopVmwareVm(vmx: string, force: bool, run: Runner) returns (r: Reply)
    ensures r == VmReply(run(Command(VmwareStop(vmx, force)), 90), "vmrun", 90)
  {
    var command := ["vmrun", "-T", "ws"];
    command := command + ["stop"];
    command := command + [vmx];
    if force {
      command := command + ["hard"];
    } else {
      command := command + ["soft"];
    }
    assert command == Command(VmwareStop(vmx, force));
    r := ExecuteVmCommand(command, "vmrun", 90, run);
  }

  /** `execute_command_in_vmware_guest`: `vmrun ... runProgramInGuest`, 120 seconds. */
  method ExecuteCommandInVmwareGuest(vmx: string, user: string, password: string, program: string, run: Runner)
    returns (r: Reply)
    ensures r == VmReply(run(Command(VmwareGuestRun(vmx, user, password, program)), 120), "vmrun", 120)
  {
    var command := ["vmrun", "-T", "ws", "-gu", user, "-gp", password, "runProgramInGuest", vmx, "-activeWindow", program];
    assert command == Command(VmwareGuestRun(vmx, user, password, program));
    r := ExecuteVmCommand(command, "vmrun", 120, run);
  }

  // -----------------------------------------------------------------------
  // `start_vmware_vm` as written
  // -----------------------------------------------------------------------

  /** The result of a Python call that either returns or raises `TypeError`. */
  datatype Call<T> = Returned(value: T) | TypeError(message: string)

  /** Python's `list.append(*args)`: exactly one argument is accepted. */
  function ListAppend(xs: seq<string>, args: seq<string>): (r: Call<seq<string>>)
    ensures r.Returned? <==> |args| == 1
    ensures r.Returned? ==> r.value == xs + args
  {
    if |args| == 1 then Returned(xs + args)
    else TypeError("list.append() takes exactly one argument (" + Decimal(|args|) + " given)")
  }

  /**
   * `start_vmware_vm` as written: both branches call `append` with two
   * arguments, so the call raises `TypeError` before the tool is run, and
   * nothing in the function catches it.
   */
  method StartVmwareVmAsWritten(vmx: string, nogui: bool, run: Runner) returns (r: Call<Reply>)
    ensures r == TypeError("list.append() takes exactly one argument (2 given)")
  {
    var command := ["vmrun"];
    var step := ListAppend(command, if nogui then ["-T", "ws-nogui"] else ["-T", "ws"]);
    assert Decimal(2) == "2";
    match step
    case TypeError(message) =>
      return TypeError(message);
    case Returned(_) =>
      assert false;
  }
}
