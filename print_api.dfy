/** The two endpoints of the print service (python-api/main.py) that hold
    logic: `POST /print` (`print_document` and the per-OS print
    functions) and `GET /printers` (the per-OS dispatch). The operating
    system, the existence of the file and the results of the subprocesses
    are inputs. */
module PrintApi {
  import opened Wrappers
  import opened Text
  import opened Records
  import opened LprCommand
  import opened PrinterList

  /** `platform.system().lower()`, reduced to the three cases the code
      distinguishes. */
  datatype Os = Windows | Darwin | OtherUnix

  /** How the print subprocess ended: it ran and exited with a code and
      its stderr, or `subprocess.run` itself raised (the program is
      missing, the output cannot be decoded, ...) with the given
      `str()` of the exception. */
  datatype ProcessResult = ProcessExited(returncode: int, stderr: string) | ProcessRaised(message: string)

  /** The run exited with code 0. */
  predicate Succeeded(run: ProcessResult) {
    run.ProcessExited? && run.returncode == 0
  }

  /** A reply of `POST /print`: success, or an `HTTPException`. */
  datatype PrintReply = Printed(message: string) | PrintError(status: nat, detail: string)

  /** The argument vector each OS runs for a job. */
  function CommandFor(os: Os, job: PrintCommand): seq<string> {
    if os == Windows then WindowsArgs(job.filePath) else LprArgs(job.settings, job.filePath)
  }

  /** The message of the exception each OS's print function raises when
      the subprocess exits non-zero. */
  function FailureMessage(os: Os, stderr: string): string {
    match os
    case Windows => "Windows print failed: " + stderr
    case Darwin => "macOS print failed: " + stderr
    case OtherUnix => "Unix print failed: " + stderr
  }

  /** `print_windows`: returns the command and the exception it raises,
      if any. */
  method PrintWindows(job: PrintCommand, run: ProcessResult) returns (cmd: seq<string>, failure: Option<string>)
    ensures cmd == WindowsArgs(job.filePath)
    ensures failure.None? <==> Succeeded(run)
    ensures run.ProcessRaised? ==> failure == Some(run.message)
    ensures run.ProcessExited? && run.returncode != 0 ==> failure == Some(FailureMessage(Windows, run.stderr))
  {
    cmd := WindowsArgs(job.filePath);
    failure := match run
      case ProcessRaised(message) => Some(message)
      case ProcessExited(code, stderr) => if code != 0 then Some("Windows print failed: " + stderr) else None;
  }

  /** `print_macos`. */
  method PrintMacos(job: PrintCommand, run: ProcessResult) returns (cmd: seq<string>, failure: Option<string>)
    ensures cmd == LprArgs(job.settings, job.filePath)
    ensures failure.None? <==> Succeeded(run)
    ensures run.ProcessRaised? ==> failure == Some(run.message)
    ensures run.ProcessExited? && run.returncode != 0 ==> failure == Some(FailureMessage(Darwin, run.stderr))
  {
    cmd := BuildLprCommand(job);
    failure := match run
      case ProcessRaised(message) => Some(message)
      case ProcessExited(code, stderr) => if code != 0 then Some("macOS print failed: " + stderr) else None;
  }

  /** `print_unix`: the same command as on macOS. */
  method PrintUnix(job: PrintCommand, run: ProcessResult) returns (cmd: seq<string>, failure: Option<string>)
    ensures cmd == LprArgs(job.settings, job.filePath)
    ensures failure.None? <==> Succeeded(run)
    ensures run.ProcessRaised? ==> failure == Some(run.message)
    ensures run.ProcessExited? && run.returncode != 0 ==> failure == Some(FailureMessage(OtherUnix, run.stderr))
  {
    cmd := BuildLprCommand(job);
    failure := match run
      case ProcessRaised(message) => Some(message)
      case ProcessExited(code, stderr) => if code != 0 then Some("Unix print failed: " + stderr) else None;
  }

  const PrintFailedPrefix := "Print failed: "

  /** `str()` of the `HTTPException(404, "File not found")` the handler
      raises inside its own `try`, as Starlette renders it. */
  const FileNotFoundText := "404: File not found"

  /** `print_document`. Every failure inside the `try`, the missing file
      included, becomes a 500 whose detail starts with `Print failed: `.
      `cmd` is the argument vector handed to the subprocess, if one is
      run. */
  method PrintDocument(job: PrintCommand, os: Os, fileExists: bool, run: ProcessResult)
    returns (cmd: Option<seq<string>>, reply: PrintReply)
    ensures cmd.Some? <==> fileExists
    ensures fileExists ==> cmd.value == CommandFor(os, job)
    ensures reply.Printed? <==> fileExists && Succeeded(run)
    ensures reply.Printed? ==> reply.message == "Print job sent successfully"
    ensures reply.PrintError? ==> reply.status == 500 && StartsWith(reply.detail, PrintFailedPrefix)
    ensures !fileExists ==> reply == PrintError(500, PrintFailedPrefix + FileNotFoundText)
    ensures fileExists && run.ProcessExited? && run.returncode != 0 ==>
              reply == PrintError(500, PrintFailedPrefix + FailureMessage(os, run.stderr))
    ensures fileExists && run.ProcessRaised? ==> reply == PrintError(500, PrintFailedPrefix + run.message)
  {
    if !fileExists {
      cmd := None;
      reply := PrintError(500, PrintFailedPrefix + FileNotFoundText);
      return;
    }
    var args: seq<string>;
    var failure: Option<string>;
    match os {
      case Windows => args, failure := PrintWindows(job, run);
      case Darwin => args, failure := PrintMacos(job, run);
      case OtherUnix => args, failure := PrintUnix(job, run);
    }
    cmd := Some(args);
    if failure.Some? {
      reply := PrintError(500, PrintFailedPrefix + failure.value);
    } else {
      reply := Printed("Print job sent successfully");
    }
  }

  /** `GET /printers`: the list of the OS's printer query. macOS and
      other Unix systems read the same `lpstat -p` output in the same
      way. */
  method GetPrinters(os: Os, win: WinRun, lpstat: LpstatRun) returns (printers: seq<Printer>)
    ensures os == Windows ==> printers == WindowsPrinters(win)
    ensures os != Windows && lpstat.LpstatFailed? ==> printers == []
    ensures os != Windows && lpstat.LpstatStdout? ==> printers == LpstatPrinters(SplitOn(lpstat.text, '\n'))
  {
    if os == Windows {
      printers := GetPrintersWindows(win);
    } else {
      printers := GetPrintersLpstat(lpstat);
    }
  }
}
