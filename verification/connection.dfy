/**
 * The `Connection` base class of the uploader: the REPL command framing that
 * every transport (serial port, network socket) inherits.
 *
 * The transport primitives are abstract in the source; here they are the
 * appends of a log of transport events, so that every concrete operation is
 * specified by exactly the events it adds to that log.
 */
module ReplConnection {
  import opened Options

  /** Control characters of the MicroPython REPL. */
  const StartPaste: char := '\U{5}'   // Ctrl-E: enter paste mode
  const EndPaste: char := '\U{4}'     // Ctrl-D: leave paste mode and execute
  const Kill: char := '\U{3}'         // Ctrl-C: interrupt running code

  /** The line ending `run_file` passes to `send_line` (the bytes `b"\r"`). */
  const CR: string := "\r"

  /** One call of a transport primitive. */
  datatype Event =
    | Char(c: char)                       // send_character(c)
    | Line(text: string, ending: string)  // send_line(text, ending)
    | AllRead                             // read_all(), its data discarded
    | LineRead                            // read_line(), its data discarded

  /** The characters an event puts on the wire (reads put none). */
  function Emitted(e: Event): string
  {
    match e
    case Char(c) => [c]
    case Line(text, ending) => text + ending
    case AllRead => ""
    case LineRead => ""
  }

  /** The characters a whole log puts on the wire, in order. */
  function Wire(log: seq<Event>): string
  {
    if log == [] then "" else Emitted(log[0]) + Wire(log[1..])
  }

  lemma {:induction false} WireAppend(a: seq<Event>, b: seq<Event>)
    ensures Wire(a + b) == Wire(a) + Wire(b)
  {
    if a == [] {
      assert a + b == b;
    } else {
      assert (a + b)[0] == a[0];
      assert (a + b)[1..] == a[1..] + b;
      WireAppend(a[1..], b);
    }
  }

  // ---------------------------------------------------------------------
  // The generated Python source.  File names are interpolated as they are,
  // between double quotes, with no escaping.

  const OpenPrefix: string := "with open(\""
  const OpenSuffix: string := "\") as f:"
  const ExecLine: string := "    exec(f.read(), globals())"
  const RemovePrefix: string := "import os; os.remove(\""
  const RemoveSuffix: string := "\")"

  /** `before + arg + after`: what `str.format` makes of a template with one `{}`. */
  function Interpolate(before: string, arg: string, after: string): (r: string)
    ensures |r| == |before| + |arg| + |after|
    ensures r[..|before|] == before
    ensures r[|before|..|before| + |arg|] == arg
    ensures r[|before| + |arg|..] == after
  {
    before + arg + after
  }

  /** The argument a line made by `Interpolate(before, _, after)` carries, if it is one. */
  function Extract(s: string, before: string, after: string): (r: Option<string>)
    ensures r.Some? ==> Interpolate(before, r.value, after) == s
    ensures r.None? ==> forall arg :: Interpolate(before, arg, after) != s
  {
    if |before| + |after| <= |s| && s[..|before|] == before && s[|s| - |after|..] == after
    then
      var arg := s[|before|..|s| - |after|];
      assert before + arg + after == s;
      Some(arg)
    else
      None
  }

  lemma ExtractInterpolate(before: string, arg: string, after: string)
    ensures Extract(Interpolate(before, arg, after), before, after) == Some(arg)
  {
  }

  /** The first line of the `run_file` snippet: `with open("<fileName>") as f:`. */
  function OpenLine(fileName: string): (r: string)
    ensures Extract(r, OpenPrefix, OpenSuffix) == Some(fileName)
  {
    ExtractInterpolate(OpenPrefix, fileName, OpenSuffix);
    Interpolate(OpenPrefix, fileName, OpenSuffix)
  }

  /** The `remove_file` statement: `import os; os.remove("<fileName>")`. */
  function RemoveLine(fileName: string): (r: string)
    ensures Extract(r, RemovePrefix, RemoveSuffix) == Some(fileName)
  {
    ExtractInterpolate(RemovePrefix, fileName, RemoveSuffix);
    Interpolate(RemovePrefix, fileName, RemoveSuffix)
  }

  /** The arguments of one `run_file` call. */
  datatype RunFileCall = RunFileCall(fileName: string, globalsInit: string)

  /** The events one `run_file(fileName, globalsInit)` sends. */
  function RunFileFrame(fileName: string, globalsInit: string): (r: seq<Event>)
    ensures |r| == if globalsInit == "" then 4 else 5
    ensures r[0] == Char(StartPaste) && r[|r| - 1] == Char(EndPaste)
    ensures forall i :: 0 < i < |r| - 1 ==> r[i].Line? && r[i].ending == CR
    ensures r[|r| - 3].text == OpenLine(fileName) && r[|r| - 2].text == ExecLine
    ensures globalsInit != "" ==> r[1].text == globalsInit
  {
    [Char(StartPaste)]
    + (if globalsInit != "" then [Line(globalsInit, CR)] else [])
    + [Line(OpenLine(fileName), CR), Line(ExecLine, CR), Char(EndPaste)]
  }

  /** Recovers the `run_file` arguments from the events it sent. */
  function ParseRunFile(frame: seq<Event>): (r: Option<RunFileCall>)
    ensures r.Some? ==> RunFileFrame(r.value.fileName, r.value.globalsInit) == frame
  {
    if 4 <= |frame| <= 5
       && frame[0] == Char(StartPaste) && frame[|frame| - 1] == Char(EndPaste)
       && frame[|frame| - 2] == Line(ExecLine, CR)
       && frame[|frame| - 3].Line? && frame[|frame| - 3].ending == CR
       && (|frame| == 5 ==> frame[1].Line? && frame[1].ending == CR && frame[1].text != "")
    then
      var globalsInit := if |frame| == 5 then frame[1].text else "";
      match Extract(frame[|frame| - 3].text, OpenPrefix, OpenSuffix)
      case Some(fileName) =>
        assert frame[|frame| - 3] == Line(OpenLine(fileName), CR);
        Some(RunFileCall(fileName, globalsInit))
      case None => None
    else
      None
  }

  /** `run_file` is injective: its events determine the file name and the prelude. */
  lemma RunFileRoundTrip(fileName: string, globalsInit: string)
    ensures ParseRunFile(RunFileFrame(fileName, globalsInit)) == Some(RunFileCall(fileName, globalsInit))
  {
  }

  /** No character of `s` would end or restart paste mode. */
  predicate PasteSafe(s: string)
  {
    forall i :: 0 <= i < |s| ==> s[i] != StartPaste && s[i] != EndPaste
  }

  lemma PasteSafeAppend(a: string, b: string)
    ensures PasteSafe(a + b) <==> PasteSafe(a) && PasteSafe(b)
  {
    if PasteSafe(a) && PasteSafe(b) {
      forall i | 0 <= i < |a + b|
        ensures (a + b)[i] != StartPaste && (a + b)[i] != EndPaste
      {
        if i >= |a| { assert (a + b)[i] == b[i - |a|]; }
      }
    }
    if PasteSafe(a + b) {
      forall i | 0 <= i < |b| ensures b[i] != StartPaste && b[i] != EndPaste {
        assert b[i] == (a + b)[|a| + i];
      }
      forall i | 0 <= i < |a| ensures a[i] != StartPaste && a[i] != EndPaste {
        assert a[i] == (a + b)[i];
      }
    }
  }

  /** What `run_file` puts between its two control characters. */
  function RunFileBody(fileName: string, globalsInit: string): string
  {
    (if globalsInit != "" then globalsInit + CR else "")
    + OpenLine(fileName) + CR + ExecLine + CR
  }

  lemma WireSingle(e: Event)
    ensures Wire([e]) == Emitted(e)
  {
  }

  /** `Wire` of a five-part log, with the parts' wires left abstract. */
  lemma WireFive(a: seq<Event>, b: seq<Event>, c: seq<Event>, d: seq<Event>, e: seq<Event>)
    ensures Wire(a + b + c + d + e) == Wire(a) + Wire(b) + Wire(c) + Wire(d) + Wire(e)
  {
    WireAppend(a + b + c + d, e);
    WireAppend(a + b + c, d);
    WireAppend(a + b, c);
    WireAppend(a, b);
  }

  /**
   * On the wire, a `run_file` exchange is the start-paste character, the body,
   * and the end-paste character.
   */
  lemma RunFileWire(fileName: string, globalsInit: string)
    ensures Wire(RunFileFrame(fileName, globalsInit))
         == [StartPaste] + RunFileBody(fileName, globalsInit) + [EndPaste]
  {
    var start, end := Char(StartPaste), Char(EndPaste);
    var open, exec := Line(OpenLine(fileName), CR), Line(ExecLine, CR);
    var g: seq<Event> := if globalsInit != "" then [Line(globalsInit, CR)] else [];
    var frame := RunFileFrame(fileName, globalsInit);
    assert frame == [start] + g + [open] + [exec] + [end];
    WireFive([start], g, [open], [exec], [end]);
    WireSingle(start);
    WireSingle(open);
    WireSingle(exec);
    WireSingle(end);
    if globalsInit != "" { WireSingle(g[0]); }
    var pre := if globalsInit != "" then globalsInit + CR else "";
    assert Wire(g) == pre;
    SplitBody(pre, OpenLine(fileName), ExecLine);
  }

  /** Re-associates the concatenation that makes up the wire form. */
  lemma SplitBody(pre: string, open: string, exec: string)
    ensures [StartPaste] + pre + (open + CR) + (exec + CR) + [EndPaste]
         == [StartPaste] + (pre + open + CR + exec + CR) + [EndPaste]
  {
  }

  /** The fixed parts of the generated source contain no paste-mode control character. */
  lemma LiteralsPasteSafe()
    ensures PasteSafe(CR) && PasteSafe(OpenPrefix) && PasteSafe(OpenSuffix) && PasteSafe(ExecLine)
  {
  }

  /**
   * The body of a `run_file` exchange is free of both control characters
   * exactly when the file name and the prelude are, since neither is escaped.
   */
  lemma RunFileBodyPasteSafe(fileName: string, globalsInit: string)
    ensures PasteSafe(RunFileBody(fileName, globalsInit))
        <==> PasteSafe(fileName) && PasteSafe(globalsInit)
  {
    LiteralsPasteSafe();
    var pre := if globalsInit != "" then globalsInit + CR else "";
    PasteSafeAppend(globalsInit, CR);
    PasteSafeAppend(OpenPrefix, fileName);
    PasteSafeAppend(OpenPrefix + fileName, OpenSuffix);
    BodyPasteSafe(pre, OpenLine(fileName), ExecLine);
  }

  lemma BodyPasteSafe(pre: string, open: string, exec: string)
    requires PasteSafe(CR) && PasteSafe(exec)
    ensures PasteSafe(pre + open + CR + exec + CR) <==> PasteSafe(pre) && PasteSafe(open)
  {
    PasteSafeAppend(pre, open);
    PasteSafeAppend(pre + open, CR);
    PasteSafeAppend(pre + open + CR, exec);
    PasteSafeAppend(pre + open + CR + exec, CR);
  }

  // ---------------------------------------------------------------------
  // The connection object.

  class Connection {
    var readerRunning: bool
    var autoReadEnabled: bool
    /** Every transport primitive called on this connection, oldest first. */
    var log: seq<Event>

    /** A fresh connection: reader stopped, auto-read on, nothing sent. */
    constructor ()
      ensures !readerRunning && autoReadEnabled && log == []
    {
      readerRunning := false;
      autoReadEnabled := true;
      log := [];
    }

    /** Transport primitive: write `text` followed by `ending`. */
    method SendLine(text: string, ending: string)
      modifies this`log
      ensures log == old(log) + [Line(text, ending)]
    {
      log := log + [Line(text, ending)];
    }

    /** Transport primitive: write one character. */
    method SendCharacter(c: char)
      modifies this`log
      ensures log == old(log) + [Char(c)]
    {
      log := log + [Char(c)];
    }

    /** Transport primitive: drain whatever is buffered. */
    method ReadAll()
      modifies this`log
      ensures log == old(log) + [AllRead]
    {
      log := log + [AllRead];
    }

    /** Transport primitive: read one line. */
    method ReadLine()
      modifies this`log
      ensures log == old(log) + [LineRead]
    {
      log := log + [LineRead];
    }

    /** Discards stale output with exactly one `read_all`. */
    method ReadJunk()
      modifies this`log
      ensures log == old(log) + [AllRead]
    {
      ReadAll();
    }

    method SendStartPaste()
      modifies this`log
      ensures log == old(log) + [Char(StartPaste)]
    {
      SendCharacter(StartPaste);
    }

    method SendEndPaste()
      modifies this`log
      ensures log == old(log) + [Char(EndPaste)]
    {
      SendCharacter(EndPaste);
    }

    method SendKill()
      modifies this`log
      ensures log == old(log) + [Char(Kill)]
    {
      SendCharacter(Kill);
    }

    /**
     * Executes a file on the device: in one paste-mode session, the optional
     * prelude, then `with open("<fileName>") as f:` and an `exec` of its text.
     */
    method RunFile(fileName: string, globalsInit: string)
      modifies this`log
      ensures log == old(log) + RunFileFrame(fileName, globalsInit)
    {
      SendStartPaste();
      if globalsInit != "" {
        SendLine(globalsInit, CR);
      }
      SendLine(OpenLine(fileName), CR);
      SendLine(ExecLine, CR);
      SendEndPaste();
    }

    /**
     * Deletes a file on the device with one statement and no control
     * character.  The source passes no line ending, so the ending is whatever
     * the concrete transport supplies: a parameter here.
     */
    method RemoveFile(fileName: string, ending: string)
      modifies this`log
      ensures log == old(log) + [Line(RemoveLine(fileName), ending)]
    {
      SendLine(RemoveLine(fileName), ending);
    }

    /** One pass of the background reader: a line is read only while auto-read is on. */
    method ReaderIteration() returns (didRead: bool)
      modifies this`log
      ensures didRead == autoReadEnabled
      ensures log == old(log) + if autoReadEnabled then [LineRead] else []
    {
      didRead := false;
      if autoReadEnabled {
        ReadLine();
        didRead := true;
      }
    }
  }
}
