/**
 * The firmware flashing dialog: the argument list it hands to `flash.py`,
 * the directory it remembers after a firmware file is picked, the
 * `_flashing` flag, and the loop that turns the flasher's output (which
 * redraws progress with backspaces) into the text shown in the dialog.
 */
module Flashing {
  import opened Options

  newtype byte = b: int | 0 <= b < 256

  const Backspace: byte := 8

  /** The bytes of `b"\r\n\t "`. */
  predicate IsWhitespace(x: byte)
    ensures IsWhitespace(x) ==> x != Backspace
  {
    x == 13 || x == 10 || x == 9 || x == 32
  }

  /** Python's normalisation of a slice end `k` on a sequence of length `len`. */
  function SliceEnd(len: nat, k: int): (r: nat)
    ensures r <= len
    ensures k < 0 && -k <= len ==> len - r == -k
    ensures k < 0 && -k > len ==> r == 0
  {
    if k < 0 then (if len + k < 0 then 0 else len + k)
    else if k <= len then k else len
  }

  function Max0(n: int): nat
  {
    if n < 0 then 0 else n
  }

  /** The character codes of `s`, one byte each (the constant texts below are ASCII). */
  function Ascii(s: string): (r: seq<byte>)
    ensures |r| == |s|
  {
    seq(|s|, i requires 0 <= i < |s| => (s[i] as int % 256) as byte)
  }

  // ---------------------------------------------------------------------
  // The command line of the flashing subprocess.

  const FlashScript: string := "flash.py"
  const EraseOption: string := "--erase"
  const DebugOption: string := "--debug"

  /**
   * `[python_path, "flash.py", port, firmware_file]`, then `--erase` when the
   * flash is to be erased, then `--debug` in debug mode.
   */
  function FlashArgs(pythonPath: string, port: string, firmwareFile: string,
                     eraseFlash: bool, debugMode: bool): (r: seq<string>)
    ensures 4 <= |r| <= 6
    ensures |r| == 4 + (if eraseFlash then 1 else 0) + (if debugMode then 1 else 0)
    ensures r[..4] == [pythonPath, FlashScript, port, firmwareFile]
    ensures eraseFlash <==> |r| > 4 && r[4] == EraseOption
    ensures debugMode <==> |r| > 4 && r[|r| - 1] == DebugOption
  {
    [pythonPath, FlashScript, port, firmwareFile]
    + (if eraseFlash then [EraseOption] else [])
    + (if debugMode then [DebugOption] else [])
  }

  // ---------------------------------------------------------------------
  // Paths: `path.split("/")` and `"/".join(parts)`.

  const Sep: char := '/'

  /** `s.split("/")`: the pieces between separators, empty ones included. */
  function Split(s: string): (parts: seq<string>)
    ensures |parts| >= 1
    ensures forall i :: 0 <= i < |parts| ==> Sep !in parts[i]
    ensures |parts| == 1 <==> Sep !in s
  {
    if s == [] then [""]
    else if s[0] == Sep then [""] + Split(s[1..])
    else
      var rest := Split(s[1..]);
      [[s[0]] + rest[0]] + rest[1..]
  }

  /** `"/".join(parts)`. */
  function Join(parts: seq<string>): (r: string)
    ensures |parts| > 0 ==> parts[0] <= r
    ensures |parts| > 1 ==> Sep in r
  {
    if |parts| == 0 then ""
    else if |parts| == 1 then parts[0]
    else parts[0] + [Sep] + Join(parts[1..])
  }

  /** Joining the pieces of a split gives back the string. */
  lemma {:induction false} JoinSplit(s: string)
    ensures Join(Split(s)) == s
  {
    if s == [] {
    } else if s[0] == Sep {
      JoinSplit(s[1..]);
      assert ([""] + Split(s[1..]))[1..] == Split(s[1..]);
    } else {
      var rest := Split(s[1..]);
      JoinSplit(s[1..]);
      var parts := [[s[0]] + rest[0]] + rest[1..];
      assert parts[1..] == rest[1..];
      if |rest| == 1 {
        assert s == [s[0]] + s[1..];
      } else {
        assert Join(rest) == rest[0] + [Sep] + Join(rest[1..]);
        assert s == [s[0]] + s[1..];
      }
    }
  }

  /** Joining all pieces equals joining all but the last, a separator, and the last. */
  lemma {:induction false} JoinLast(parts: seq<string>)
    requires |parts| >= 2
    ensures Join(parts) == Join(parts[..|parts| - 1]) + [Sep] + parts[|parts| - 1]
  {
    if |parts| == 2 {
      assert parts[..1] == [parts[0]];
    } else {
      JoinLast(parts[1..]);
      assert parts[1..][..|parts| - 2] == parts[..|parts| - 1][1..];
      assert parts[1..][|parts| - 2] == parts[|parts| - 1];
    }
  }

  /** The directory remembered for a picked file: `"/".join(path.split("/")[0:-1])`. */
  function ParentDirectory(path: string): (r: string)
    ensures r <= path
    ensures Sep !in path ==> r == ""
  {
    var parts := Split(path);
    JoinSplit(path);
    if |parts| >= 2 then JoinLast(parts); Join(parts[..|parts| - 1])
    else Join(parts[..|parts| - 1])
  }

  /** The last `/`-separated component of a path. */
  function LastComponent(path: string): string
  {
    var parts := Split(path);
    parts[|parts| - 1]
  }

  /**
   * The remembered directory is the path without its last component: with a
   * separator in the path, directory, separator and last component rebuild
   * it; without one, the directory is empty.
   */
  lemma ParentDirectoryRebuildsPath(path: string)
    ensures Sep !in LastComponent(path)
    ensures Sep in path ==> ParentDirectory(path) + [Sep] + LastComponent(path) == path
    ensures Sep !in path ==> ParentDirectory(path) == ""
  {
    var parts := Split(path);
    JoinSplit(path);
    if Sep in path {
      JoinLast(parts);
    }
  }

  // ---------------------------------------------------------------------
  // Rendering the flasher's output.

  /**
   * The state of the rendering loop: the text flushed so far, the bytes read
   * since the last flush, and the backspaces counted since the last flush.
   */
  datatype Console = Console(output: seq<byte>, buf: seq<byte>, delete: nat)

  /**
   * A flush: when backspaces are pending, the flushed text loses that many
   * trailing bytes (`output[:-delete]`, empty when it is shorter), then the
   * buffered bytes are appended.
   */
  function Flush(c: Console): (r: seq<byte>)
    ensures |r| == Max0(|c.output| - c.delete) + |c.buf|
    ensures r == c.output[..Max0(|c.output| - c.delete)] + c.buf
  {
    (if c.delete > 0 then c.output[..SliceEnd(|c.output|, -(c.delete as int))] else c.output) + c.buf
  }

  /** Whether reading byte `x` flushes before `x` itself is handled. */
  predicate FlushesBefore(x: byte, delete: nat)
    ensures IsWhitespace(x) ==> FlushesBefore(x, delete)
    ensures x == Backspace ==> (FlushesBefore(x, delete) <==> delete == 0)
    ensures x != Backspace && !IsWhitespace(x) ==> !FlushesBefore(x, delete)
  {
    (x == Backspace && delete == 0) || (x != Backspace && IsWhitespace(x))
  }

  /** One iteration of the loop for a byte that was read. */
  function Step(c: Console, x: byte): (r: Console)
    ensures x == Backspace && c.delete == 0 ==>
              r == Console(Flush(c), [], 1)
    ensures x == Backspace && c.delete > 0 ==>
              r == Console(c.output, c.buf, c.delete + 1)
    ensures IsWhitespace(x) ==>
              r == Console(Flush(c), [x], 0)
    ensures x != Backspace && !IsWhitespace(x) ==>
              r == Console(c.output, c.buf + [x], c.delete)
  {
    var flushed := if FlushesBefore(x, c.delete) then Console(Flush(c), [], 0) else c;
    if x == Backspace then flushed.(delete := flushed.delete + 1)
    else flushed.(buf := flushed.buf + [x])
  }

  /** The flushed text once `input` has been read to its end from state `c`. */
  function Rendered(c: Console, input: seq<byte>): (r: seq<byte>)
    ensures |r| <= |c.output| + |c.buf| + |input|
    decreases |input|
  {
    if input == [] then Flush(c) else Rendered(Step(c, input[0]), input[1..])
  }

  /** Without backspaces, the output is everything pending followed by the whole input. */
  lemma {:induction false} RenderedWithoutBackspace(c: Console, input: seq<byte>)
    requires c.delete == 0
    requires Backspace !in input
    ensures Rendered(c, input) == c.output + c.buf + input
    decreases |input|
  {
    if input == [] {
    } else {
      var x := input[0];
      assert x != Backspace;
      assert Backspace !in input[1..];
      RenderedWithoutBackspace(Step(c, x), input[1..]);
      assert input == [x] + input[1..];
    }
  }

  /** A backspace byte is never written to the output: it only counts. */
  lemma {:induction false} RenderedHasNoBackspace(c: Console, input: seq<byte>)
    requires Backspace !in c.output && Backspace !in c.buf
    ensures Backspace !in Rendered(c, input)
    decreases |input|
  {
    if input != [] {
      RenderedHasNoBackspace(Step(c, input[0]), input[1..]);
    }
  }

  /**
   * The counted backspaces apply to the text flushed before them, not to the
   * bytes typed after them: for printable `a` and `b`, "a, backspace, b,
   * backspace" keeps `b` and erases `a` together with the byte before it,
   * where a terminal would have shown the earlier text unchanged.
   */
  lemma BackspacesEraseFlushedText(output: seq<byte>, a: byte, b: byte)
    requires a != Backspace && !IsWhitespace(a)
    requires b != Backspace && !IsWhitespace(b)
    ensures Rendered(Console(output, [], 0), [a, Backspace, b, Backspace])
         == output[..Max0(|output| - 1)] + [b]
  {
    var c1 := Step(Console(output, [], 0), a);
    var c2 := Step(c1, Backspace);
    var c3 := Step(c2, b);
    var c4 := Step(c3, Backspace);
    assert c4 == Console(output + [a], [b], 2);
    var input := [a, Backspace, b, Backspace];
    assert input[1..] == [Backspace, b, Backspace];
    assert input[1..][1..] == [b, Backspace];
    assert input[1..][1..][1..] == [Backspace];
    assert Rendered(c4, []) == Flush(c4);
    assert Rendered(c3, [Backspace]) == Rendered(c4, []);
    assert Rendered(c2, [b, Backspace]) == Rendered(c3, [Backspace]);
    assert Rendered(c1, [Backspace, b, Backspace]) == Rendered(c2, [b, Backspace]);
    assert (output + [a])[..Max0(|output| - 1)] == output[..Max0(|output| - 1)];
  }

  // ---------------------------------------------------------------------
  // The dialog.

  /** What the "Flash" button hands to the flashing job. */
  datatype FlashJob = FlashJob(pythonPath: string, firmwareFile: string, eraseFlash: bool)

  /**
   * How starting `flash.py` turned out: the interpreter was not found, starting
   * it failed with another operating-system error (a directory or a file that
   * is not executable, for instance), or it ran to its exit with this output.
   */
  datatype Launch = NotFound | Crashed | Exited(stdout: seq<byte>, exitCode: int)

  /** The exit code the job reports when the interpreter could not be started. */
  const LaunchFailed: int := -1

  /**
   * The code `_flash_job` hands to `_flash_finished`, if any.  Only a missing
   * interpreter is caught, so any other failure to start ends the job thread
   * without reporting anything.
   */
  function ReportedCode(launch: Launch): (r: Option<int>)
    ensures r.None? <==> launch.Crashed?
    ensures launch.NotFound? ==> r == Some(LaunchFailed)
    ensures launch.Exited? ==> r == Some(launch.exitCode)
  {
    match launch
    case NotFound => Some(LaunchFailed)
    case Crashed => None
    case Exited(_, exitCode) => Some(exitCode)
  }

  /** The same job with every failure to start caught, as a missing interpreter is. */
  function ReportedCodeCatchingOSError(launch: Launch): (r: Option<int>)
    ensures r.Some?
    ensures launch.Exited? ==> r == Some(launch.exitCode)
    ensures !launch.Exited? ==> r == Some(LaunchFailed)
  {
    match launch
    case Exited(_, exitCode) => Some(exitCode)
    case _ => Some(LaunchFailed)
  }

  /** Catching every failure changes nothing for the launches the job already handles. */
  lemma CatchingOSErrorAgreesOnHandledLaunches(launch: Launch)
    ensures !launch.Crashed? ==> ReportedCodeCatchingOSError(launch) == ReportedCode(launch)
    ensures launch.Crashed? ==> ReportedCode(launch).None? && ReportedCodeCatchingOSError(launch).Some?
  {
  }

  const RebootNotice: seq<byte> := Ascii("Rebooting from flash mode...\n")

  class FlashDialog {
    var pythonPathText: string
    var firmwarePathText: string
    /** The remembered firmware directory setting, "" while unset. */
    var lastFirmwareDirectory: string
    var port: Option<string>
    var flashOutput: seq<byte>
    var flashing: bool
    var flashButtonEnabled: bool

    /** A new dialog: not flashing, with the remembered interpreter path, enabled iff a port was found. */
    constructor (pythonExecutable: string, firmwareDirectory: string, portsFound: bool)
      ensures !flashing && port == None && flashOutput == []
      ensures pythonPathText == pythonExecutable && firmwarePathText == ""
      ensures lastFirmwareDirectory == firmwareDirectory
      ensures flashButtonEnabled == portsFound
    {
      pythonPathText := pythonExecutable;
      firmwarePathText := "";
      lastFirmwareDirectory := firmwareDirectory;
      port := None;
      flashOutput := [];
      flashing := false;
      flashButtonEnabled := portsFound;
    }

    /**
     * The "Refresh" button: the flash button is enabled exactly when ports
     * were found, whether or not a flash is under way.
     */
    method RefreshPorts(portsFound: bool)
      modifies this`flashButtonEnabled
      ensures flashButtonEnabled == portsFound
    {
      flashButtonEnabled := portsFound;
    }

    /** A file chosen in the file dialog ("" when cancelled) becomes the firmware path. */
    method PickFirmware(chosen: string)
      modifies this`firmwarePathText, this`lastFirmwareDirectory
      ensures chosen == "" ==> (firmwarePathText == old(firmwarePathText)
                                && lastFirmwareDirectory == old(lastFirmwareDirectory))
      ensures chosen != "" ==> (firmwarePathText == chosen
                                && lastFirmwareDirectory == ParentDirectory(chosen))
    {
      if chosen != "" {
        firmwarePathText := chosen;
        lastFirmwareDirectory := ParentDirectory(chosen);
      }
    }

    /**
     * The "Flash" button: the output is cleared first; without an interpreter
     * path or a firmware file nothing starts and the flag is untouched;
     * otherwise a job starts on the selected port and the dialog is flashing.
     */
    method Flash(eraseFlash: bool, selectedPort: string) returns (job: Option<FlashJob>)
      modifies this`flashOutput, this`port, this`flashing, this`flashButtonEnabled
      ensures flashOutput == []
      ensures job.None? <==> pythonPathText == "" || firmwarePathText == ""
      ensures job.None? ==> (flashing == old(flashing) && port == old(port)
                             && flashButtonEnabled == old(flashButtonEnabled))
      ensures job.Some? ==> (job.value == FlashJob(pythonPathText, firmwarePathText, eraseFlash)
                             && flashing && port == Some(selectedPort) && !flashButtonEnabled)
    {
      flashOutput := [];
      if pythonPathText == "" {
        return None;
      }
      if firmwarePathText == "" {
        return None;
      }
      port := Some(selectedPort);
      job := Some(FlashJob(pythonPathText, firmwarePathText, eraseFlash));
      flashButtonEnabled := false;
      flashing := true;
    }

    /**
     * The flashing job: builds the command line, and when the interpreter
     * starts, renders its whole output; reports the exit code, or -1 when the
     * interpreter was not found, or nothing when starting it failed otherwise.
     */
    method RunFlashJob(job: FlashJob, debugMode: bool, launch: Launch) returns (args: seq<string>, code: Option<int>)
      requires port.Some?
      modifies this`flashOutput
      ensures args == FlashArgs(job.pythonPath, port.value, job.firmwareFile, job.eraseFlash, debugMode)
      ensures code == ReportedCode(launch)
      ensures !launch.Exited? ==> flashOutput == old(flashOutput)
      ensures launch.Exited? ==> flashOutput == Rendered(Console(old(flashOutput), [], 0), launch.stdout)
    {
      args := FlashArgs(job.pythonPath, port.value, job.firmwareFile, job.eraseFlash, debugMode);
      match launch {
        case NotFound =>
          code := Some(LaunchFailed);
        case Crashed =>
          code := None;
        case Exited(stdout, exitCode) =>
          RenderOutput(stdout);
          code := Some(exitCode);
      }
    }

    /**
     * A press of the "Flash" button followed by its job and, when the job
     * reports a code, by `_flash_finished`.  A job that fails to start for any
     * reason but a missing interpreter leaves the dialog flashing, so that it
     * refuses to close until another job reports a code, and leaves the button
     * disabled until the port list is refreshed.
     */
    method FlashToCompletion(eraseFlash: bool, selectedPort: string, debugMode: bool, launch: Launch)
      returns (job: Option<FlashJob>)
      modifies this`flashOutput, this`port, this`flashing, this`flashButtonEnabled
      ensures job.None? <==> pythonPathText == "" || firmwarePathText == ""
      ensures job.Some? ==> job.value == FlashJob(pythonPathText, firmwarePathText, eraseFlash)
      ensures job.None? ==> (flashing == old(flashing) && flashButtonEnabled == old(flashButtonEnabled)
                             && port == old(port) && flashOutput == [])
      ensures job.Some? ==> port == Some(selectedPort)
      ensures job.Some? ==> (flashing <==> launch.Crashed?)
      ensures job.Some? ==> (flashButtonEnabled <==> !launch.Crashed?)
      ensures job.Some? && launch.Exited? ==>
                flashOutput == Rendered(Console([], [], 0), launch.stdout)
                               + (if launch.exitCode == 0 then RebootNotice else [])
      ensures job.Some? && !launch.Exited? ==> flashOutput == []
    {
      job := Flash(eraseFlash, selectedPort);
      if job.Some? {
        var args, code := RunFlashJob(job.value, debugMode, launch);
        if code.Some? {
          FlashFinished(code.value);
        }
      }
    }

    /**
     * The same sequence with every failure to start reported as -1: every
     * started job ends with the dialog no longer flashing.
     */
    method FlashToCompletionCatchingOSError(eraseFlash: bool, selectedPort: string, debugMode: bool,
                                            launch: Launch)
      returns (job: Option<FlashJob>)
      modifies this`flashOutput, this`port, this`flashing, this`flashButtonEnabled
      ensures job.None? <==> pythonPathText == "" || firmwarePathText == ""
      ensures job.Some? ==> job.value == FlashJob(pythonPathText, firmwarePathText, eraseFlash)
      ensures job.None? ==> (flashing == old(flashing) && flashButtonEnabled == old(flashButtonEnabled)
                             && port == old(port) && flashOutput == [])
      ensures job.Some? ==> port == Some(selectedPort)
      ensures job.Some? ==> !flashing && flashButtonEnabled
      ensures job.Some? && launch.Exited? ==>
                flashOutput == Rendered(Console([], [], 0), launch.stdout)
                               + (if launch.exitCode == 0 then RebootNotice else [])
      ensures job.Some? && !launch.Exited? ==> flashOutput == []
    {
      job := Flash(eraseFlash, selectedPort);
      if job.Some? {
        var args, _ := RunFlashJob(job.value, debugMode, launch);
        FlashFinished(ReportedCodeCatchingOSError(launch).value);
      }
    }

    /**
     * Reads the flasher's output one byte at a time (an empty read is the end
     * of the stream) and keeps the flushed text in `flashOutput`.
     */
    method RenderOutput(stdout: seq<byte>)
      modifies this`flashOutput
      ensures flashOutput == Rendered(Console(old(flashOutput), [], 0), stdout)
    {
      var buf: seq<byte> := [];
      var delete: nat := 0;
      var i := 0;
      while true
        invariant 0 <= i <= |stdout|
        invariant Rendered(Console(flashOutput, buf, delete), stdout[i..])
               == Rendered(Console(old(flashOutput), [], 0), stdout)
        decreases |stdout| - i
      {
        var x: Option<byte> := if i < |stdout| then Some(stdout[i]) else None;
        if x.None? || (x.value == Backspace && delete == 0)
           || (x.value != Backspace && IsWhitespace(x.value)) {
          if delete > 0 {
            flashOutput := flashOutput[..SliceEnd(|flashOutput|, -(delete as int))];
          }
          flashOutput := flashOutput + buf;
          buf := [];
          delete := 0;
        }
        if x.None? {
          break;
        }
        if x.value == Backspace {
          delete := delete + 1;
        } else {
          buf := buf + [x.value];
        }
        i := i + 1;
      }
    }

    /**
     * The job has ended: on success the reboot notice is appended; in every
     * case the button is enabled again and the dialog is no longer flashing.
     */
    method FlashFinished(code: int)
      modifies this`flashOutput, this`flashing, this`flashButtonEnabled
      ensures !flashing && flashButtonEnabled
      ensures flashOutput == old(flashOutput) + if code == 0 then RebootNotice else []
    {
      if code == 0 {
        flashOutput := flashOutput + RebootNotice;
      }
      flashButtonEnabled := true;
      flashing := false;
    }
  }
}
