# uPyLoader: REPL command framing and flasher output rendering

This project models two sequential pieces of uPyLoader, a host-side tool that
drives a MicroPython board's REPL over a serial or network link.

**The `Connection` base class** (`src/connection.py`), module `ReplConnection`.
Concrete transports inherit from it and supply the primitives `send_line`,
`send_character`, `read_all` and `read_line`. In the model these primitives
append an `Event` to the connection's `log`. Every operation the base class
builds on them is then specified by the exact events it appends:

- `run_file` opens a paste-mode session with Ctrl-E (0x05). It sends the
  optional globals prelude, then `with open("<file>") as f:` and
  `    exec(f.read(), globals())`, each ended by `\r`. It closes the session
  with Ctrl-D (0x04).
- `remove_file` sends the single statement `import os; os.remove("<file>")`.
- `send_kill` sends Ctrl-C (0x03).
- `read_junk` performs one `read_all`.

The file name goes into the generated Python between double quotes, verbatim.
The model proves three things about this:

- The name can be recovered from the generated line (`Extract`).
- The events of a `run_file` call determine its arguments (`ParseRunFile`).
- On the wire, the text between the two control characters is free of both
  of them exactly when the file name and the prelude are.

**The flashing dialog** (`src/flash_dialog.py`), module `Flashing`:

- the `flash.py` command line (`FlashArgs`);
- the directory remembered after a firmware file is picked (`ParentDirectory`,
  built from models of Python's `str.split` and `str.join`);
- the `_flashing` flag and the button state across `_flash` and
  `_flash_finished`;
- the loop of `_flash_job` that turns the flasher's byte stream into the
  dialog's text.

That loop buffers bytes and counts backspaces (0x08). It flushes at end of
stream, on the first backspace after a flush, and before a whitespace byte.
A flush cuts the counted number of bytes off the text flushed so far, using
Python slicing, so it never goes below empty. It then appends the buffer.
`Rendered` is the value-level meaning of the loop. `FlashDialog.RenderOutput`
is the loop itself, proved equal to it. The lemmas about `Rendered` give its
properties:

- Without backspaces, the input is appended unchanged.
- A backspace byte is never written to the output.
- The output grows by at most the number of bytes read.
- Backspaces that follow new text still erase text flushed before it. This is
  the code's behaviour, not a terminal's.

## Model

| member | source | states |
|---|---|---|
| `ReplConnection.Connection.constructor` | src/connection.py:6-10 | a new connection has its reader stopped, auto-read enabled, and nothing sent |
| `ReplConnection.Connection.SendLine` | src/connection.py:27-28 | the transport primitive appends exactly one line event, with its text and ending, and changes nothing else |
| `ReplConnection.Connection.SendCharacter` | src/connection.py:30-31 | the transport primitive appends exactly one character event and changes nothing else |
| `ReplConnection.Connection.ReadAll` | src/connection.py:21-22 | the transport primitive records one drain of the input |
| `ReplConnection.Connection.ReadLine` | src/connection.py:18-19 | the transport primitive records one line read |
| `ReplConnection.Connection.ReadJunk` | src/connection.py:24-25 | discarding junk is exactly one `read_all` and returns nothing |
| `ReplConnection.Connection.SendStartPaste` | src/connection.py:44-45 | sends exactly the Ctrl-E character (0x05) |
| `ReplConnection.Connection.SendEndPaste` | src/connection.py:47-48 | sends exactly the Ctrl-D character (0x04) |
| `ReplConnection.Connection.SendKill` | src/connection.py:50-51 | sends exactly the Ctrl-C character (0x03); nothing else changes |
| `ReplConnection.Connection.RunFile` | src/connection.py:33-39 | appends exactly the `run_file` frame for the file name and prelude, in order |
| `ReplConnection.Connection.RemoveFile` | src/connection.py:41-42 | appends exactly one line, `import os; os.remove("<file>")`, and no control character |
| `ReplConnection.Connection.ReaderIteration` | src/connection.py:56-60 | one pass of the background reader reads a line if and only if auto-read is enabled |
| `ReplConnection.Interpolate` | src/connection.py:37 | formatting a one-placeholder template gives the fixed text before, the argument, then the fixed text after, at those positions; the verbatim-name property of the generated lines is carried by `Extract`, `OpenLine` and `RemoveLine` |
| `ReplConnection.Extract` | src/connection.py:42 | the inverse of interpolation: what it returns interpolates back to the line, and when it finds nothing no argument produces that line |
| `ReplConnection.ExtractInterpolate` | src/connection.py:37 | the argument is recovered from any interpolated line, whatever characters it contains |
| `ReplConnection.OpenLine` | src/connection.py:37 | the `with open("...") as f:` line carries the file name verbatim between the quotes |
| `ReplConnection.RemoveLine` | src/connection.py:42 | the `os.remove("...")` statement carries the file name verbatim between the quotes |
| `ReplConnection.RunFileFrame` | src/connection.py:33-39 | five events with a prelude and four without; the first is start-paste, the last end-paste, and all between are `\r`-terminated lines: the prelude, the open line, then the exec line |
| `ReplConnection.ParseRunFile` | src/connection.py:33-39 | a frame it accepts is exactly the frame of the arguments it returns |
| `ReplConnection.RunFileRoundTrip` | src/connection.py:33-39 | a `run_file` frame determines its file name and prelude |
| `ReplConnection.WireAppend` | src/connection.py:33-39 | the characters sent for two logs in sequence are the characters of each, in order |
| `ReplConnection.RunFileWire` | src/connection.py:34-39 | on the wire a `run_file` exchange is 0x05, the body lines each ended by `\r`, then 0x04 |
| `ReplConnection.RunFileBodyPasteSafe` | src/connection.py:35-38 | the body contains neither 0x04 nor 0x05 if and only if the file name and the prelude contain neither |
| `Flashing.FlashArgs` | src/flash_dialog.py:110-114 | `[python, "flash.py", port, firmware]` followed by `--erase` if and only if erasing and then `--debug` if and only if debugging; 4 to 6 arguments |
| `Flashing.Split` | src/flash_dialog.py:82 | splitting on `/` gives at least one piece, no piece contains `/`, and exactly one piece if and only if the path has no `/` |
| `Flashing.Join` | src/flash_dialog.py:82 | `"/".join(parts)`: the first piece is a prefix of the result, and two or more pieces put a `/` in it |
| `Flashing.JoinSplit` | src/flash_dialog.py:82 | joining the pieces of a split with `/` rebuilds the string |
| `Flashing.JoinLast` | src/flash_dialog.py:82 | joining two or more pieces is joining all but the last, `/`, then the last |
| `Flashing.ParentDirectory` | src/flash_dialog.py:82 | the remembered directory is a prefix of the picked path, and empty when the path has no `/`; `ParentDirectoryRebuildsPath` states the rest |
| `Flashing.ParentDirectoryRebuildsPath` | src/flash_dialog.py:82 | the remembered directory, `/` and the last component rebuild a path that contains `/`; a path without `/` gives an empty directory |
| `Flashing.IsWhitespace` | src/flash_dialog.py:126 | the bytes of `b"\r\n\t "`; none of them is a backspace, so the `x[0] != 8` guard never excludes one |
| `Flashing.SliceEnd` | src/flash_dialog.py:129 | Python's slice end for `[:-delete]`: never past the end, exactly `delete` bytes short when there are that many, and 0 otherwise |
| `Flashing.Flush` | src/flash_dialog.py:127-130 | a flush keeps the first `max(0, len - delete)` bytes of the flushed text and appends the buffer |
| `Flashing.FlushesBefore` | src/flash_dialog.py:126 | whitespace always flushes before it is buffered; a backspace flushes if and only if none is pending; any other byte never flushes |
| `Flashing.Step` | src/flash_dialog.py:126-141 | a first backspace flushes and counts 1; later backspaces only count; whitespace flushes and starts the new buffer with itself; any other byte is buffered |
| `Flashing.RenderedWithoutBackspace` | src/flash_dialog.py:123-141 | with no backspace in the input and none pending, the final text is the old text, the buffer and the whole input |
| `Flashing.RenderedHasNoBackspace` | src/flash_dialog.py:138-141 | byte 0x08 never reaches the output |
| `Flashing.Rendered` | src/flash_dialog.py:123-141 | the text once the stream has been read to its end: at most the old text plus the pending and read bytes long; `RenderedWithoutBackspace`, `RenderedHasNoBackspace` and `BackspacesEraseFlushedText` state the rest |
| `Flashing.BackspacesEraseFlushedText` | src/flash_dialog.py:126-141 | "a, backspace, b, backspace" keeps `b` and erases the byte before `a`: counted backspaces apply to already flushed text |
| `Flashing.FlashDialog.constructor` | src/flash_dialog.py:19-42 | a new dialog is not flashing and has no port or output; the button is enabled if and only if a port was found |
| `Flashing.FlashDialog.RefreshPorts` | src/flash_dialog.py:52-63 | refreshing enables the flash button exactly when ports were found, whether or not a flash is under way |
| `Flashing.FlashDialog.PickFirmware` | src/flash_dialog.py:72-82 | a chosen file becomes the firmware path and its parent directory is remembered; a cancelled choice changes nothing |
| `Flashing.FlashDialog.Flash` | src/flash_dialog.py:149-166 | clears the output first; with an empty interpreter or firmware path no job starts and the flag is unchanged; otherwise a job starts, the port is set, the button is disabled and the dialog is flashing |
| `Flashing.ReportedCode` | src/flash_dialog.py:109-118 | the job reports -1 when the interpreter is missing, the exit code when it ran, and nothing if and only if starting it failed with another error |
| `Flashing.ReportedCodeCatchingOSError` | src/flash_dialog.py:116-118 | with every failure to start caught, every job reports a code: -1 unless the interpreter ran |
| `Flashing.CatchingOSErrorAgreesOnHandledLaunches` | src/flash_dialog.py:109-118 | catching every failure reports the same code for every launch except one that fails with another error, which only it reports |
| `Flashing.FlashDialog.RunFlashJob` | src/flash_dialog.py:108-147 | builds the `flash.py` argument list; reports what `ReportedCode` gives; renders the output only when the interpreter ran, and leaves it untouched otherwise |
| `Flashing.FlashDialog.FlashToCompletion` | src/flash_dialog.py:147-190 | a job starts exactly when both the interpreter and the firmware path are non-empty, with those paths and the erase choice; without a job, only the output changes (it is cleared); after a started job the port is the selected one, the output is the rendered stream plus the reboot notice after exit code 0 (empty when the interpreter did not run), and the dialog is still flashing with its button disabled if and only if starting the interpreter failed with an error other than a missing file |
| `Flashing.FlashDialog.FlashToCompletionCatchingOSError` | src/flash_dialog.py:147-190 | the same new state (a job starts exactly when both paths are non-empty), except that with every failure to start reported, every started job ends with the dialog not flashing and the button enabled |
| `Flashing.FlashDialog.RenderOutput` | src/flash_dialog.py:120-141 | the byte-at-a-time loop leaves in the output exactly the rendering of the whole stream |
| `Flashing.FlashDialog.FlashFinished` | src/flash_dialog.py:168-190 | the flag is cleared and the button re-enabled; after exit code 0 the reboot notice is appended |

## Left out

- `ReplConnection.Connection.RemoveFile`: the ending is a parameter. `remove_file` calls `send_line` with only the text (src/connection.py:42), but the base class declares `send_line(line_text, ending)` (src/connection.py:27). With the base signature that call raises `TypeError`. It only works if a concrete transport gives `ending` a default, and the concrete transports are not part of this model. So the ending is whatever the caller passes; no default is assumed.
- The data returned by `read_all` and `read_line` is not modelled. `read_junk` and the background reader discard it, so only the fact that a read happened is logged.
- The background reader loop (src/connection.py:53-61) is left out: its lock, its `_reader_running` loop and its `time.sleep` back-off are about concurrency. Only one pass of its body is modelled (`ReaderIteration`).
- The `terminal` argument of the `Connection` constructor is not modelled. It is stored and never used by the modelled operations.
- `is_connected`, `disconnect`, `list_files`, `write_file` and `read_file` are left out: the base class only raises `NotImplementedError` for them. The errors a concrete transport may raise (not connected, transport failure) belong to those transports, which are not part of this model.
- Text versus bytes: line texts, endings and control characters are all modelled as characters. The encoding a transport applies before writing is not modelled.
- `Flashing.FlashDialog.RunFlashJob`: it does not model running `flash.py`. `subprocess.Popen`, the pipe and `sub.wait` become a `Launch` value with three outcomes: "interpreter not found", "failed to start with another operating-system error" (which the job does not catch), or the whole output with the exit code. The job thread, `_flash_output_mutex`, the Qt signals and `Logger` are left out, so the loop is modelled sequentially.
- `Flashing.FlashDialog.FlashFinished`: the reboot over the serial port with its `time.sleep` pauses (src/flash_dialog.py:175-183) and the error message boxes are left out. These are I/O.
- `Flashing.FlashDialog.Flash`: the port comes in as a parameter. The port scanner and the combo box index are left out, and so is the message box shown when a path is missing.
- The global `Settings` object becomes parameters: `debug_mode` for `RunFlashJob`, and the interpreter path and firmware directory for the constructor. The remembered firmware directory is a field of the dialog.
- Before the first flash, `_flash_output` is `None`; the model starts it as empty.
- `_update_output` is left out: it decodes UTF-8 and handles the scroll bar. So are `_pick_python`, `_show_wiring`, the port scan inside `_refresh_ports`, and the window-close and Escape handlers, which only read `_flashing`. `_refresh_ports` is modelled by its outcome: the `portsFound` parameter of the constructor (the call at line 42) and of `RefreshPorts` (the Refresh button, line 35).
- `Flashing.FlashDialog.FlashToCompletion`: the Refresh button can re-enable the flash button during or after a flash (`RefreshPorts` ignores `_flashing`), and a second press of Flash then starts a second job beside the first. Concurrent jobs are not modelled. The button claims of `Flash`, `FlashToCompletion` and `FlashToCompletionCatchingOSError` therefore hold only when Refresh is not pressed in between.

## Findings

| source | as written | input that shows it | evidently intended | confidence | as-written member | corrected member |
|---|---|---|---|---|---|---|
| src/flash_dialog.py:109-118 | only `FileNotFoundError` from `subprocess.Popen` is caught; any other `OSError` ends the job thread before `_flash_finished_signal` (line 147) is emitted, so `_flashing` stays set until another job reports a code, the flash button stays disabled until the port list is refreshed, and until then `closeEvent` (lines 44-46) refuses to close the dialog | an interpreter path that names a directory or a file that is not executable (`Launch.Crashed`) | every started job reports a code, so the dialog leaves the flashing state on its own and can be closed | medium, not executed | `Flashing.FlashDialog.FlashToCompletion` | `Flashing.FlashDialog.FlashToCompletionCatchingOSError` |

`RunFlashJob` and `FlashToCompletion` keep the behaviour as written, because they model the code. `ReportedCodeCatchingOSError` and `FlashToCompletionCatchingOSError` are the corrected job outcome and session. `CatchingOSErrorAgreesOnHandledLaunches` proves that the correction changes nothing for the launches the code already handles.
