# Python-to-C++ converter: verified model of the pipeline kernel

The repository is a small tool that streams a Python program through a
language model (OpenAI or Anthropic) to get a C++ translation, then runs the
Python program in-process and compiles and runs the C++ one so that the two
outputs can be compared. This project models the sequential logic of that
pipeline in `main.py` and proves what it promises:

- `Fences.dfy`: the fence stripping done with chained `str.replace` calls.
  `Remove` is Python's `str.replace(pat, "")`: scan left to right and drop
  every non-overlapping occurrence. `write_output` strips ```` ```cpp ```` and
  then ```` ``` ````. The streams strip ```` ```cpp ```` plus a newline, then
  ```` ``` ````. The lemmas show that the strips only delete characters, leave no
  triple backtick, are idempotent, and that `write_output`'s strip changes
  nothing in text a stream has already cleaned.
- `Prompts.dfy`: `SYSTEM_MESSAGE`, `user_prompt_for` and `messages_for`.
- `Streams.dfy`: `stream_gpt` and `stream_claude` as loops. Each folds the
  fragments into a cumulative `reply` and yields one stripped snapshot per
  fragment. `optimize` dispatches on the label. A backend is a total
  function from the request it receives to the fragments it streams back.
- `Sandbox.dfy`: `execute_python`. `sys.stdout` and `io.StringIO` are classes.
  The executed program is an input: what it prints and how it ends.
- `Toolchain.dfy`: `write_output`, `_find_compiler` and `execute_cpp` as
  methods of a `Machine` class. The class holds the files on disk and a ghost
  trace of the stages invoked. The platform check, the `--version` probes and
  the compile and run subprocesses come from a `Host` value.
- `Outcomes.dfy`: `Option` and `Result`.

Each stateful method is proved against a specification function
(`Snapshots`, `Captured`, `Discover`, `CppCycle`). The lemmas state the
source's promises about those functions.

Two behaviours of the code are worth knowing:

- The raw `reply` of a stream only grows (`ConcatGrows`), but the stripped
  snapshots the user sees can shrink. A fence completed by a later fragment
  disappears from the later snapshot (`SnapshotsCanShrink`).
- The stream strip removes ```` ```cpp ```` only when a newline follows it.
  Followed by other text, the fence becomes `cpp` in a stream but vanishes
  in `write_output` (`StreamStripKeepsBareTag`).

Execution failures never surface as a tagged outcome. Once `execute_cpp`
has written the file, a missing compiler, a compile failure, a crash or any
`Exception` from a subprocess becomes a message with a fixed prefix. An
error while writing the file, or a `BaseException` outside `Exception`,
propagates instead; the model covers neither. `execute_python` reports an
ordinary exception inside the captured text. Only a `BaseException` outside
`Exception` (for example `SystemExit`) propagates, and `sys.stdout` is
restored in that case too.

## Model

| member | source | states |
|---|---|---|
| Fences.Remove | main.py:44 | `str.replace(pat, "")` never lengthens the text |
| Fences.OccursIffSomeSuffix | main.py:44 | the recursive occurrence test holds exactly when some suffix of the text starts with the pattern |
| Fences.RemoveIsSubsequence | main.py:44 | `replace(pat, "")` only deletes characters; the survivors keep their original order |
| Fences.RemoveAbsent | main.py:44 | text that does not contain the pattern comes back unchanged |
| Fences.RemovePresentShrinks | main.py:44 | text that contains a non-empty pattern comes back strictly shorter |
| Fences.RemoveUnchangedIff | main.py:44 | `s.replace(pat, "") == s` if and only if `pat not in s` |
| Fences.RemoveTicksLeavesNoTicks | main.py:44 | after `replace("```", "")` no triple backtick is left anywhere |
| Fences.NoFenceWithoutTicks | main.py:44 | text without a triple backtick holds neither opening fence |
| Fences.StripWriteCleanAndIdempotent | main.py:44 | `write_output`'s strip leaves no fence, and stripping again changes nothing |
| Fences.StripStreamCleanAndIdempotent | main.py:58 | the streams' strip leaves no fence, and stripping again changes nothing |
| Fences.StripWriteAfterStripStream | main.py:44-58 | the defensive strip in `write_output` is a no-op on a snapshot a stream already cleaned |
| Fences.StripsOnlyDelete | main.py:44-58 | both strips keep the other input characters in order and are never longer than the input |
| Fences.StripsUnchangedIff | main.py:44-58 | each strip returns its input unchanged exactly when the input holds no triple backtick |
| Fences.StreamStripKeepsBareTag | main.py:44-58 | for any backtick-free text not starting with a newline, a stream turns ```` ```cpp ```` plus that text into `cpp` plus the text, while `write_output` leaves only the text |
| Fences.NoBacktickNoTicks | main.py:44 | text without a backtick holds no triple backtick |
| Prompts.ProgramOf | main.py:28-34 | a prompt yields a program exactly when it starts with the fixed preamble, and it is then preamble plus program |
| Prompts.UserPromptRoundTrip | main.py:28-34 | `user_prompt_for(code)` is the fixed preamble followed by `code` verbatim, and `code` can be read back from it |
| Prompts.UserPromptInjective | main.py:28-34 | different programs give different prompts |
| Prompts.MessagesFor | main.py:36-40 | exactly two messages: the system message holding `SYSTEM_MESSAGE`, then the user message holding the prompt for `code` |
| Streams.RequestsCarrySameText | main.py:48-66 | the OpenAI and Anthropic requests carry the same system instruction and the same user prompt |
| Streams.ConcatGrows | main.py:57 | the raw `reply` only grows by appending each fragment at its end |
| Streams.Snapshots | main.py:54-58 | a stream yields exactly one value per fragment |
| Streams.SnapshotsAt | main.py:54-58 | the k-th yielded value is the stream strip of the first k+1 fragments joined, in order |
| Streams.SnapshotsAreClean | main.py:58 | every yielded snapshot is fence-free and unchanged by `write_output`'s strip |
| Streams.SnapshotsCanShrink | main.py:54-58 | a later snapshot can be shorter than an earlier one, although the raw reply grew |
| Streams.StreamGpt | main.py:48-58 | yields exactly the snapshots of the OpenAI chunks, a missing `content` counted as `""` |
| Streams.StreamClaude | main.py:60-71 | yields exactly the snapshots of the Anthropic text stream |
| Streams.CopyAll | main.py:80-81 | re-yields every element of the generator, in order |
| Streams.Optimize | main.py:73-81 | "GPT" yields exactly `stream_gpt`'s values and "Claude" exactly `stream_claude`'s; any other label yields nothing and raises `ValueError("Unknown model selection")` |
| Sandbox.TextBuffer.constructor | main.py:126 | a new `StringIO` is empty |
| Sandbox.TextBuffer.Write | main.py:130 | writing appends to the buffer |
| Sandbox.CapturedTranscript | main.py:124-135 | only a non-`Exception` escapes; otherwise the result starts with what the program printed and, after an exception, ends with the line `Python execution error: <e>` |
| Sandbox.ErrorIndistinguishableFromOutput | main.py:131-132 | a raised exception gives the same result as a program that printed the error line itself |
| Sandbox.Sys.constructor | main.py:125 | `sys.stdout` starts as the given stream |
| Sandbox.Sys.Print | main.py:132 | `print` appends the line and a newline to the current `sys.stdout` |
| Sandbox.Sys.ExecutePython | main.py:124-135 | on every exit path `sys.stdout` is the previous stream again, nothing was written to it, and the result is the captured outcome |
| Toolchain.FirstAnsweringIsEarliest | main.py:141-147 | the chosen candidate answers and every earlier one does not; none is chosen exactly when no candidate answers |
| Toolchain.DiscoverChoosesFirstAnswering | main.py:137-147 | Windows gets `g++` without probing; elsewhere `g++`, then `clang++`, is probed and the first that answers is used, else "No suitable C++ compiler found." |
| Toolchain.CycleOrder | main.py:149-164 | the stripped code is written first and only once; a compile is the last stage or is followed only by the run; the run is the last stage, comes right after the compile, and happens exactly when the compile exited 0 |
| Toolchain.CycleWithoutCompiler | main.py:147-152 | with no compiler the result is `An error occurred: No suitable C++ compiler found.` and nothing is compiled or run |
| Toolchain.CycleCompileFailure | main.py:155-157 | a non-zero compile returns `Compilation failed with <compiler>:` and the compiler's standard error verbatim; nothing is run |
| Toolchain.CycleSubprocessRaises | main.py:155-164 | a compile or run subprocess that raises gives `An error occurred: <e>`; after a compile that raised nothing is run |
| Toolchain.CycleRunOutcome | main.py:159-162 | a non-zero run returns `Program crashed:` and its standard error; a zero exit returns its standard output |
| Toolchain.Machine.constructor | main.py:149 | a machine starts from the given host and files with an empty trace |
| Toolchain.Machine.WriteOutput | main.py:43-46 | the file at `path` holds the code with fences stripped; no other file changes |
| Toolchain.Machine.FindCompiler | main.py:137-147 | returns `Discover(host)` and records exactly the probes it made |
| Toolchain.Machine.RunCompiler | main.py:154-155 | the compiler sees the current content of `optimized.cpp` |
| Toolchain.Machine.RunProgram | main.py:158-159 | the run subprocess is invoked once with the run command |
| Toolchain.Machine.ExecuteCpp | main.py:149-164 | writes the stripped code to `optimized.cpp`, returns the cycle's message and records exactly the cycle's stages |

## Left out

- Client construction, API keys and the network streaming calls (main.py:12-20, 49-53, 61-69): each backend is a total function from request to fragments.
- A backend stream that breaks mid-way: a stream here always delivers all its fragments; an exception from the network is not modelled.
- Actual file I/O, `subprocess.run` and `platform.system()` (main.py:45-46, 138, 143, 153-159): files are a map, processes come from `Host`, the platform is a boolean that stays the same for the whole call.
- An exception from `write_output` (main.py:150, outside the `try`) is not modelled: writing always succeeds.
- A `BaseException` outside `Exception` (for example `KeyboardInterrupt`) during `execute_cpp` escapes the `except` at main.py:163; it is not modelled.
- `exec` of the Python program (main.py:129-130): what it prints and how it ends are inputs; a program that itself replaces `sys.stdout` is not covered.
- The Gradio interface, CSS and event wiring (main.py:167-200), and the `PYTHON_HARD` sample program (main.py:83-122), which is data fed to the tool.
