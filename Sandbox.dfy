/**
 * `execute_python` (main.py:124-135): runs a Python program with
 * `sys.stdout` swapped for an in-memory buffer, turns an exception into a
 * line of the captured text, and puts the previous `sys.stdout` back on
 * every exit path.
 *
 * The interpreter (`exec`) is not modelled: what the program prints and how
 * it ends are inputs.
 */
module Sandbox {
  import opened Outcomes

  /** An in-memory text stream, `io.StringIO`. */
  class TextBuffer {
    var text: string

    constructor ()
      ensures text == ""
    {
      text := "";
    }

    /** `write(s)`: appends to what was written so far. */
    method Write(s: string)
      modifies this
      ensures text == old(text) + s
    {
      text := text + s;
    }
  }

  /** How the executed program ended. */
  datatype Ending =
    | Finished
      /** It raised an exception derived from `Exception`; `message` is `str(e)`. */
    | Raised(message: string)
      /** It raised a `BaseException` outside `Exception` (`SystemExit`, `KeyboardInterrupt`). */
    | Escaped(kind: string, message: string)

  /** What `exec(code, ...)` did: the text it printed, then how it ended. */
  datatype Execution = Execution(printed: string, ending: Ending)

  /** The line `print(f"Python execution error: {e}")` writes (main.py:132). */
  function ErrorLine(message: string): string
  {
    "Python execution error: " + message + "\n"
  }

  /**
   * The outcome of `execute_python`: the captured text, or the exception
   * that `except Exception` does not catch and that therefore propagates.
   */
  function Captured(run: Execution): Result<string, Ending>
  {
    match run.ending
    case Finished => Ok(run.printed)
    case Raised(message) => Ok(run.printed + ErrorLine(message))
    case Escaped(_, _) => Err(run.ending)
  }

  /**
   * An ordinary exception never escapes: the call returns what the program
   * printed, and when it raised, that text is followed by exactly one line
   * naming the error.
   */
  lemma CapturedTranscript(run: Execution)
    ensures !run.ending.Escaped? <==> Captured(run).Ok?
    ensures Captured(run).Ok? ==> run.printed <= Captured(run).value
    ensures run.ending.Finished? ==> Captured(run).value == run.printed
    ensures run.ending.Raised? ==>
      Captured(run).value[|run.printed|..] == ErrorLine(run.ending.message)
  {
    if run.ending.Raised? {
      assert Captured(run).value[|run.printed|..] == ErrorLine(run.ending.message);
    }
  }

  /**
   * Errors are reported in band: a program that raises gives the same
   * result as one that prints the error line itself and finishes.
   */
  lemma ErrorIndistinguishableFromOutput(printed: string, message: string)
    ensures Captured(Execution(printed, Raised(message)))
         == Captured(Execution(printed + ErrorLine(message), Finished))
  {
  }

  /** The interpreter's `sys` module, of which only `sys.stdout` matters here. */
  class Sys {
    var stdout: TextBuffer

    constructor (out: TextBuffer)
      ensures stdout == out
    {
      stdout := out;
    }

    /** `print(line)`: writes the line and a newline to the current `sys.stdout`. */
    method Print(line: string)
      modifies stdout
      ensures stdout.text == old(stdout.text) + line + "\n"
    {
      stdout.Write(line + "\n");
    }

    /**
     * `execute_python(code)` for a program that behaves as `run` describes.
     * Whatever happens, `sys.stdout` is the same object afterwards and
     * nothing was written to it.
     */
    method ExecutePython(run: Execution) returns (r: Result<string, Ending>)
      modifies this
      ensures stdout == old(stdout) && stdout.text == old(stdout.text)
      ensures r == Captured(run)
    {
      var oldStdout := stdout;
      var output := new TextBuffer();
      // try:
      stdout := output;
      stdout.Write(run.printed);
      assert output.text == run.printed;
      match run.ending {
        case Finished =>
          assert output.text == run.printed;
        case Raised(message) =>
          // except Exception as e: (sys.stdout is still the buffer here)
          Print("Python execution error: " + message);
          assert output.text == run.printed + ErrorLine(message);
        case Escaped(_, _) =>
          // finally: runs before the exception propagates
          stdout := oldStdout;
          return Err(run.ending);
      }
      // finally:
      stdout := oldStdout;
      return Ok(output.text);
    }
  }
}
