# External command gateway of a local control assistant, in Dafny

This project models the part of the assistant that runs external tools: the
layer that builds an argument vector, runs it once as a child process with a
timeout, and turns what happened into the `(bool, str)` pair that every tool
function returns. It has two halves.

- `vm_manager.dfy` (module `VmManager`) models `assistant/tools/vm_manager.py`.
  It builds the argument vectors for `VBoxManage` (VirtualBox: list, start,
  stop) and `vmrun` (VMware: list, start, stop, run a program in the guest).
  Each operation has its own timeout. All of them go through one helper,
  `_execute_vm_command`. The source builds most vectors step by step with
  `append`/`extend` and grows its failure message with `+=`, so these are
  methods on local sequences. Each method is proved equal to the functions
  `Command` (which vector) and `VmReply` (which reply).
- `windows_automator.dfy` (module `WindowsAutomator`) models
  `assistant/tools/windows_automator.py`. `execute_command` wraps a raw
  command for `cmd /c` or `powershell -NoProfile -Command` and refuses any
  other shell type. Directory listing, the two-step process listing
  (PowerShell `Get-Process`, then `tasklist`) and the fire-and-forget program
  launcher are built on it. That source is all expressions and branches, so
  it is modelled with functions.
- `process.dfy` (module `Process`) holds what both share. `Outcome` is how
  one `subprocess.run` ends: exited with a code and both streams, executable
  not found, timed out, or another exception with its text. `SpawnOutcome`
  is the same for `subprocess.Popen`. `Reply` is the `(bool, str)` pair, and
  `ErrorKind` is the failure taxonomy that a reply's text reports.
- `text.dfy` (modules `Options`, `PyText`) holds the parts of Python's `str`
  that the gateway's results depend on. `Strip` is `str.strip()` with
  Python's whitespace set. `Decimal` is `str(int)`, with the parser
  `ParseInt` as its inverse. `StartsWith`, `EndsWith` and `Contains` are the
  prefix, suffix and substring tests.

The operating system is an oracle. `Runner` maps an argument vector and a
timeout to an `Outcome`. `Spawner` maps an argument vector to a
`SpawnOutcome`. Every operation takes one as a parameter, so each contract
says exactly which vector runs, with which timeout, and what reply each
outcome produces.

Every builder has a partner. `Decode` reads any VM argument vector back as
the operation and arguments that produced it, and `Unwrap` reads a shell
wrapping back as its shell type and raw command. `VmDiagnose` and
`ShellDiagnose` read a failure reply's text back as its `ErrorKind`,
recovering the exit code and the exception text exactly. So a boolean and
one string carry the full failure taxonomy without ambiguity.

Where the source and its evident intent differ:

- `vm_manager.py:65-66` breaks a string literal across lines. It is modelled
  as the one-line message `Erro: Ferramenta '<tool>' não encontrada. ...`.
- `vm_manager.py:40-41` is another broken literal. It is inside a console
  warning, which is left out.
- `windows_automator.py:35` puts `\U` in a non-raw docstring, which is a
  syntax error. It does not affect behaviour.
- `windows_automator.py:149` has `try:` at column 0. It is modelled as the
  body of `start_program_windows`.
- As written, neither module can be imported.
- `vm_manager.py:156` and `vm_manager.py:158` call `list.append` with two
  arguments. This is modelled both as written and as intended (see
  Findings).

Three points about the code's own shape:

- An unknown shell type is refused at run time, not when the command is
  built: `execute_command` returns `(False, "Tipo de shell desconhecido: ...")`
  (`windows_automator.py:64-65`).
- Every result is a boolean and a string, with no separate error kind.
  `VmDiagnose` and `ShellDiagnose` read the failure kind back from the
  string.
- `cp850`/`utf-8` decoding is strict, so a decode failure is an ordinary
  exception, the `Raised(detail)` outcome.

## Model

| member | source | states |
|---|---|---|
| PyText.Strip | assistant/tools/vm_manager.py:57 | `str.strip()` never lengthens its input, and a non-empty result starts and ends with a non-whitespace character |
| PyText.StripIsInfix | assistant/tools/windows_automator.py:82 | the stripped text is the slice of the input right after its leading whitespace, and everything on either side of it is whitespace |
| PyText.StripEmptyIff | assistant/tools/vm_manager.py:60-61 | the stripped text is empty exactly when the input is all whitespace, which is why the raw stdout, not the stripped one, decides the appended section |
| PyText.DecimalRoundTrip | assistant/tools/vm_manager.py:59 | the decimal text that f-strings give an exit code or a timeout parses back to that number, negatives included |
| VmManager.Command | assistant/tools/vm_manager.py:81-217 | each VM operation's argument vector starts with its tool (`VBoxManage` or `vmrun`), and `Decode` recovers the operation from it: identifier, `.vmx` path and guest credentials unchanged at fixed positions, each flag from its token |
| VmManager.CommandInjective | assistant/tools/vm_manager.py:96-121 | two different operations, or the same operation with different flags or identifiers, never run the same argument vector |
| VmManager.VmReply | assistant/tools/vm_manager.py:56-70 | the reply is a success exactly on exit code 0, with the stripped stdout. A non-zero exit starts with the report of tool, code and stripped stderr. The stdout section is appended exactly when the raw stdout is non-empty |
| VmManager.VmDiagnoseRecoversKind | assistant/tools/vm_manager.py:58-70 | every failure reply's text is read back as its kind: non-zero exit with its exact code, tool not found, timeout, or unexpected exception with its exact text |
| VmManager.VmFailureMentions | assistant/tools/vm_manager.py:59-70 | every failure message names the tool. It also names the exit code and stripped stderr of a non-zero exit, the timeout in seconds, or the exception text |
| VmManager.WhitespaceStdoutStillReported | assistant/tools/vm_manager.py:60-61 | for a non-zero exit, any non-empty stdout made only of whitespace still gets the `Saída (stdout)` section appended, with empty content, whatever the tool, stderr and timeout |
| VmManager.ListingScenario | assistant/tools/vm_manager.py:56-57 | a listing that prints one machine line and a newline and exits 0 yields success with the line minus the newline |
| VmManager.MissingVmxScenario | assistant/tools/vm_manager.py:58-62 | an exit 1 with stderr `Error: file not found` is a failure read back as exit code 1, and the message contains that stderr |
| VmManager.ExecuteVmCommand | assistant/tools/vm_manager.py:27-70 | runs the given vector once with the given timeout. The message is grown step by step, and the reply equals `VmReply` of the outcome |
| VmManager.ListVBoxVms | assistant/tools/vm_manager.py:81-82 | runs exactly `VBoxManage list vms` with the default timeout of 60 and tool name `VBoxManage` |
| VmManager.StartVBoxVm | assistant/tools/vm_manager.py:96-103 | runs `VBoxManage startvm <vm> --type headless|gui`, chosen by the flag, with timeout 120 |
| VmManager.StopVBoxVm | assistant/tools/vm_manager.py:117-124 | runs `VBoxManage controlvm <vm> poweroff|acpipowerbutton`, chosen by `force`, with timeout 90 |
| VmManager.ListVmwareRunningVms | assistant/tools/vm_manager.py:139-140 | runs exactly `vmrun list` with the default timeout of 60 and tool name `vmrun` |
| VmManager.StartVmwareVm | assistant/tools/vm_manager.py:154-167 | the intended start: `vmrun -T ws-nogui|ws start <vmx> nogui|gui`, both tokens chosen by `nogui`, with timeout 120 |
| VmManager.StopVmwareVm | assistant/tools/vm_manager.py:181-190 | runs `vmrun -T ws stop <vmx> hard|soft`, chosen by `force`, with timeout 90 |
| VmManager.ExecuteCommandInVmwareGuest | assistant/tools/vm_manager.py:208-220 | runs the 11-element `vmrun ... runProgramInGuest` vector with every input at its fixed position, with timeout 120 |
| VmManager.StartVmwareVmAsWritten | assistant/tools/vm_manager.py:154-158 | as written, `start_vmware_vm` ends in `TypeError: list.append() takes exactly one argument (2 given)` for every input and every runner |
| WindowsAutomator.Wrap | assistant/tools/windows_automator.py:57-65 | only `cmd` and `powershell` are wrapped, and `Unwrap` recovers the shell type and the raw command unchanged |
| WindowsAutomator.WrappingsDisjoint | assistant/tools/windows_automator.py:60-63 | the `cmd` and PowerShell prefixes share no token, and no `cmd` wrapping equals a PowerShell wrapping |
| WindowsAutomator.ShellReply | assistant/tools/windows_automator.py:80-97 | the reply is a success exactly on exit code 0, with the stripped stdout. A non-zero exit starts with the report of code and stripped stderr. The stdout section is appended exactly when the raw stdout is non-empty |
| WindowsAutomator.ExecuteCommand | assistant/tools/windows_automator.py:55-97 | `cmd` runs `["cmd","/c"] + command` and `powershell` runs `["powershell","-NoProfile","-Command"] + command`, each once with the timeout. Any other shell type gives `(False, "Tipo de shell desconhecido: " + shell_type)` |
| WindowsAutomator.UnknownShellRunsNothing | assistant/tools/windows_automator.py:64-65 | a refused shell type fails, and its reply is the same whatever the runner would have done |
| WindowsAutomator.ShellDiagnoseRecoversKind | assistant/tools/windows_automator.py:64-97 | a reply fails exactly when the shell is refused or the child did not exit 0. Its text is then read back as the refused shell type or the child's failure kind, with exact exit code and exception text |
| WindowsAutomator.ShellFailureMentions | assistant/tools/windows_automator.py:84-97 | the failure message names the exit code and stripped stderr, the missing shell type, the timeout in seconds, or the exception text |
| WindowsAutomator.ListDirectory | assistant/tools/windows_automator.py:111-112 | runs exactly `cmd /c dir <path>`, path unchanged, with the default timeout of 30 |
| WindowsAutomator.ListProcesses | assistant/tools/windows_automator.py:122-128 | a successful `Get-Process` is returned as is. Otherwise the reply is exactly that of `cmd /c tasklist`. It succeeds exactly when one of the two runs exits 0 |
| WindowsAutomator.ListProcessesAttempts | assistant/tools/windows_automator.py:122-128 | only the two runs matter, in that order: runners that agree on `Get-Process` (and on `tasklist` when `Get-Process` fails) give the same reply |
| WindowsAutomator.LaunchArgv | assistant/tools/windows_automator.py:154 | the launched vector is the `cmd` wrapping of `start "" <program>` |
| WindowsAutomator.StartProgram | assistant/tools/windows_automator.py:154-169 | succeeds exactly when the shell process was spawned, with a message naming the program. A missing `cmd` gives the `'cmd' não encontrado` failure. Any other spawn error gives `Erro inesperado...` ending in the exception text |

## Left out

- Spawning, waiting for and killing the child process (`subprocess.run`, `subprocess.Popen`): this is operating-system I/O. The model takes its result as an oracle parameter (`Runner`, `Spawner`). It does not model that the child is killed on timeout.
- Decoding of captured bytes with `utf-8` and `cp850`: these are text codecs. A decode failure arrives as the `Raised(detail)` outcome.
- The console warnings when not on Windows (`vm_manager.py:39-44`, `windows_automator.py:46-53`, `144-147`) and the `[INFO]` print in `list_processes_windows`: they only print.
- Python's default arguments (`headless=False`, `path="."`, `shell_type="cmd"`, `timeout=30`/`60`): Dafny has no default parameters. Callers pass every argument, and the defaults the source's own calls rely on are the constants `DefaultTimeout`.
- Arguments of the wrong Python type (a `command` that is not a list, an element that is not a string) are excluded by the Dafny types. In the source, such a call raises `TypeError` inside the `try` blocks (`windows_automator.py:60`, `:63`; `subprocess.run` at `vm_manager.py:47`), and the handler answers it with the `Erro inesperado ...` reply. Only the non-Windows warning's `' '.join(command)` runs outside a handler.
- Timeouts are `nat`. Python's `int` also admits a negative timeout, which the timeout message would print, and `None`, which means no limit. Neither is modelled.
- The `__main__` demonstration blocks, the language-model agent, the database, the voice and CLI front ends, the orchestrator and the logger: not part of this model.
- StartVmwareVm: models the intended argument vector rather than the `TypeError` the source raises. The as-written behaviour is `StartVmwareVmAsWritten`.

## Findings

| source | as written | input that shows it | evidently intended | confidence | as-written member | corrected member |
|---|---|---|---|---|---|---|
| assistant/tools/vm_manager.py:156-158 | `command.append("-T", "ws-nogui")` / `command.append("-T", "ws")`: `list.append` takes one argument, so `TypeError` is raised, and nothing in `start_vmware_vm` catches it | `start_vmware_vm("vm.vmx")`, or any other input | append `-T` and then the target type, giving `vmrun -T ws-nogui|ws start <vmx> nogui|gui` | not executed; high | VmManager.StartVmwareVmAsWritten | VmManager.StartVmwareVm |
