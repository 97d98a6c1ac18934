/**
 * The native build-and-run cycle (main.py:43-46, 137-164): `write_output`
 * saves the stripped translation, `_find_compiler` picks a compiler and
 * `execute_cpp` compiles and runs the program, each stage returning early
 * with a fixed message.
 *
 * Everything outside the process is a `Host`: the platform check, whether a
 * compiler answers `--version`, and what the compile and run subprocesses
 * return. A ghost trace records the stages in the order they were invoked.
 */
module Toolchain {
  import opened Outcomes
  import opened Fences

  /** What `subprocess.run` gives back: a finished process, or the exception it raised (`str(e)`). */
  datatype Process =
    | Exited(returncode: int, stdout: string, stderr: string)
    | Failed(message: string)

  /** The environment of one invocation. */
  datatype Host = Host(
    /** `platform.system().lower().startswith("win")` */
    isWindows: bool,
    /** whether `[candidate, "--version"]` runs and exits with status 0 */
    answers: string -> bool,
    /** the compile subprocess, given its command line and the source file's content */
    compile: (seq<string>, string) -> Process,
    /** the run subprocess, given its command line */
    run: seq<string> -> Process)

  /** One side effect of the cycle. */
  datatype Stage =
    | WriteFile(path: string, content: string)
    | Probe(command: seq<string>)
    | Compile(command: seq<string>)
    | Execute(command: seq<string>)

  /** The file `write_output` writes by default and the compiler reads (main.py:43, 154). */
  const SourcePath: string := "optimized.cpp"
  /** The candidates `_find_compiler` probes, in order (main.py:141). */
  const Candidates: seq<string> := ["g++", "clang++"]
  /** The message of the `RuntimeError` raised when no candidate answers (main.py:147). */
  const NoCompiler: string := "No suitable C++ compiler found."

  function ProbeCommand(candidate: string): seq<string>
  {
    [candidate, "--version"]
  }

  /** The executable's name (main.py:153). */
  function ExeName(isWindows: bool): string
  {
    if isWindows then "optimized.exe" else "optimized"
  }

  /** `compile_cmd` (main.py:154). */
  function CompileCommand(compiler: string, isWindows: bool): seq<string>
  {
    [compiler, "-O3", "-std=c++17", "-o", ExeName(isWindows), SourcePath]
  }

  /** `run_cmd` (main.py:158). */
  function RunCommand(isWindows: bool): seq<string>
  {
    if isWindows then [ExeName(true)] else ["./" + ExeName(false)]
  }

  // ---------------------------------------------------------------------
  // Specification of compiler discovery
  // ---------------------------------------------------------------------

  /** The first candidate that answers, if any. */
  function FirstAnswering(candidates: seq<string>, answers: string -> bool): Option<string>
  {
    if candidates == [] then None
    else if answers(candidates[0]) then Some(candidates[0])
    else FirstAnswering(candidates[1..], answers)
  }

  /** The probes made while looking for it: up to and including the first that answers. */
  function ProbesUntilAnswer(candidates: seq<string>, answers: string -> bool): seq<Stage>
  {
    if candidates == [] then []
    else if answers(candidates[0]) then [Probe(ProbeCommand(candidates[0]))]
    else [Probe(ProbeCommand(candidates[0]))] + ProbesUntilAnswer(candidates[1..], answers)
  }

  /** Probes of candidates that all failed. */
  function FailedProbes(candidates: seq<string>): seq<Stage>
  {
    if candidates == [] then []
    else FailedProbes(candidates[..|candidates| - 1]) + [Probe(ProbeCommand(candidates[|candidates| - 1]))]
  }

  /**
   * `FirstAnswering` finds the earliest candidate that answers, and finds
   * none exactly when no candidate answers.
   */
  lemma {:induction false} FirstAnsweringIsEarliest(candidates: seq<string>, answers: string -> bool)
    ensures FirstAnswering(candidates, answers).None? <==>
      forall i :: 0 <= i < |candidates| ==> !answers(candidates[i])
    ensures FirstAnswering(candidates, answers).Some? ==>
      exists i :: 0 <= i < |candidates| && candidates[i] == FirstAnswering(candidates, answers).value
        && answers(candidates[i]) && forall j :: 0 <= j < i ==> !answers(candidates[j])
  {
    if candidates != [] && !answers(candidates[0]) {
      var rest := candidates[1..];
      FirstAnsweringIsEarliest(rest, answers);
      if FirstAnswering(rest, answers).Some? {
        var i :| 0 <= i < |rest| && rest[i] == FirstAnswering(rest, answers).value
          && answers(rest[i]) && forall j :: 0 <= j < i ==> !answers(rest[j]);
        assert candidates[i + 1] == rest[i];
        assert forall j :: 0 <= j < i + 1 ==> !answers(candidates[j]) by {
          forall j | 0 <= j < i + 1 ensures !answers(candidates[j]) {
            if j > 0 { assert candidates[j] == rest[j - 1]; }
          }
        }
      } else {
        assert forall i :: 0 <= i < |candidates| ==> !answers(candidates[i]) by {
          forall i | 0 <= i < |candidates| ensures !answers(candidates[i]) {
            if i > 0 { assert candidates[i] == rest[i - 1]; }
          }
        }
      }
    }
  }

  /** Skipping a prefix of candidates that do not answer changes neither the result nor the later probes. */
  lemma {:induction false} SkipSilentCandidates(candidates: seq<string>, answers: string -> bool, k: nat)
    requires k <= |candidates|
    requires forall j :: 0 <= j < k ==> !answers(candidates[j])
    ensures FirstAnswering(candidates, answers) == FirstAnswering(candidates[k..], answers)
    ensures ProbesUntilAnswer(candidates, answers)
         == FailedProbes(candidates[..k]) + ProbesUntilAnswer(candidates[k..], answers)
    decreases k
  {
    if k == 0 {
      assert candidates[k..] == candidates;
    } else {
      SkipSilentCandidates(candidates, answers, k - 1);
      var from := candidates[k - 1..];
      var probe := Probe(ProbeCommand(candidates[k - 1]));
      assert from != [] && from[0] == candidates[k - 1] && !answers(from[0]);
      assert from[1..] == candidates[k..];
      assert ProbesUntilAnswer(from, answers) == [probe] + ProbesUntilAnswer(candidates[k..], answers);
      assert candidates[..k][..k - 1] == candidates[..k - 1];
      assert FailedProbes(candidates[..k]) == FailedProbes(candidates[..k - 1]) + [probe];
    }
  }

  /** `_find_compiler()` as a value (main.py:137-147): the compiler, or the message of the error it raises. */
  function Discover(host: Host): Result<string, string>
  {
    if host.isWindows then Ok("g++")
    else match FirstAnswering(Candidates, host.answers)
      case Some(compiler) => Ok(compiler)
      case None => Err(NoCompiler)
  }

  /** The probes `_find_compiler()` makes. */
  function DiscoveryStages(host: Host): seq<Stage>
  {
    if host.isWindows then [] else ProbesUntilAnswer(Candidates, host.answers)
  }

  /**
   * Windows always gets "g++" without probing; elsewhere the first of
   * g++ and clang++ that answers `--version` is chosen, and the error is
   * raised only when neither answers.
   */
  lemma DiscoverChoosesFirstAnswering(host: Host)
    ensures host.isWindows ==> Discover(host) == Ok("g++") && DiscoveryStages(host) == []
    ensures !host.isWindows && host.answers("g++") ==>
      Discover(host) == Ok("g++") && DiscoveryStages(host) == [Probe(["g++", "--version"])]
    ensures !host.isWindows && !host.answers("g++") && host.answers("clang++") ==>
      Discover(host) == Ok("clang++")
      && DiscoveryStages(host) == [Probe(["g++", "--version"]), Probe(["clang++", "--version"])]
    ensures !host.isWindows && !host.answers("g++") && !host.answers("clang++") ==>
      Discover(host) == Err(NoCompiler)
      && DiscoveryStages(host) == [Probe(["g++", "--version"]), Probe(["clang++", "--version"])]
  {
    assert Candidates[1..] == ["clang++"];
    assert Candidates[1..][1..] == [];
  }

  // ---------------------------------------------------------------------
  // Specification of the cycle
  // ---------------------------------------------------------------------

  /** What one call of `execute_cpp` returns and the stages it goes through. */
  datatype Cycle = Cycle(output: string, stages: seq<Stage>)

  /** The message for any exception caught by `execute_cpp` (main.py:164). */
  function ErrorMessage(message: string): string
  {
    "An error occurred: " + message
  }

  /** `execute_cpp(code)` as a value (main.py:149-164). */
  function CppCycle(code: string, host: Host): Cycle
  {
    var content := StripWrite(code);
    var written := [WriteFile(SourcePath, content)] + DiscoveryStages(host);
    match Discover(host)
    case Err(e) => Cycle(ErrorMessage(e), written)
    case Ok(compiler) =>
      var compileCmd := CompileCommand(compiler, host.isWindows);
      var compiled := written + [Compile(compileCmd)];
      match host.compile(compileCmd, content)
      case Failed(e) => Cycle(ErrorMessage(e), compiled)
      case Exited(code, _, stderr) =>
        if code != 0 then Cycle("Compilation failed with " + compiler + ":\n" + stderr, compiled)
        else
          var runCmd := RunCommand(host.isWindows);
          var ran := compiled + [Execute(runCmd)];
          match host.run(runCmd)
          case Failed(e) => Cycle(ErrorMessage(e), ran)
          case Exited(code, stdout, stderr) =>
            if code != 0 then Cycle("Program crashed:\n" + stderr, ran) else Cycle(stdout, ran)
  }

  /** The compile subprocess ran and exited with status 0. */
  predicate CompiledCleanly(code: string, host: Host)
  {
    Discover(host).Ok?
    && var p := host.compile(CompileCommand(Discover(host).value, host.isWindows), StripWrite(code));
       p.Exited? && p.returncode == 0
  }

  /**
   * The cycle is strictly ordered: the stripped code is written first and
   * only once, then come the probes, then at most one compile, and the
   * program is run, at most once, only right after a compile that succeeded.
   */
  lemma CycleOrder(code: string, host: Host)
    ensures var s := CppCycle(code, host).stages;
      |s| > 0 && s[0] == WriteFile(SourcePath, StripWrite(code))
      && (forall i :: 0 < i < |s| ==> !s[i].WriteFile?)
      && (forall i :: 0 <= i < |s| && s[i].Compile? ==> i == |s| - 1 || (i == |s| - 2 && s[i + 1].Execute?))
      && (forall i :: 0 <= i < |s| && s[i].Execute? ==> i == |s| - 1 && i > 0 && s[i - 1].Compile?)
      && ((exists i :: 0 <= i < |s| && s[i].Execute?) <==> CompiledCleanly(code, host))
  {
    var s := CppCycle(code, host).stages;
    var probes := DiscoveryStages(host);
    DiscoverChoosesFirstAnswering(host);
    assert forall i :: 0 <= i < |probes| ==> probes[i].Probe?;
    if CompiledCleanly(code, host) {
      assert s[|s| - 1].Execute?;
    }
  }

  /** Without a compiler the cycle stops after the probes and reports the error raised by discovery. */
  lemma CycleWithoutCompiler(code: string, host: Host)
    requires !host.isWindows && !host.answers("g++") && !host.answers("clang++")
    ensures CppCycle(code, host).output == "An error occurred: No suitable C++ compiler found."
    ensures CppCycle(code, host).stages == [WriteFile(SourcePath, StripWrite(code)),
      Probe(["g++", "--version"]), Probe(["clang++", "--version"])]
  {
    DiscoverChoosesFirstAnswering(host);
  }

  /**
   * A compile that exits non-zero is reported with the compiler's name and
   * its standard error verbatim, and the program is never run.
   */
  lemma CycleCompileFailure(code: string, host: Host, compiler: string)
    requires Discover(host) == Ok(compiler)
    requires var p := host.compile(CompileCommand(compiler, host.isWindows), StripWrite(code));
      p.Exited? && p.returncode != 0
    ensures CppCycle(code, host).output
      == "Compilation failed with " + compiler + ":\n"
         + host.compile(CompileCommand(compiler, host.isWindows), StripWrite(code)).stderr
    ensures forall st :: st in CppCycle(code, host).stages ==> !st.Execute?
  {
    DiscoverChoosesFirstAnswering(host);
  }

  /**
   * After a clean compile, a run that exits non-zero is reported as a
   * crash with its standard error, and a run that exits 0 gives its
   * standard output and nothing else.
   */
  lemma CycleRunOutcome(code: string, host: Host)
    requires CompiledCleanly(code, host)
    requires host.run(RunCommand(host.isWindows)).Exited?
    ensures var p := host.run(RunCommand(host.isWindows));
      CppCycle(code, host).output == if p.returncode != 0 then "Program crashed:\n" + p.stderr else p.stdout
  {
  }

  /**
   * A compile or run subprocess that raises is reported as
   * `An error occurred: <e>`; after a compile that raised, nothing is run.
   */
  lemma CycleSubprocessRaises(code: string, host: Host, compiler: string)
    requires Discover(host) == Ok(compiler)
    ensures var p := host.compile(CompileCommand(compiler, host.isWindows), StripWrite(code));
      p.Failed? ==>
        CppCycle(code, host).output == ErrorMessage(p.message)
        && forall st :: st in CppCycle(code, host).stages ==> !st.Execute?
    ensures var p := host.run(RunCommand(host.isWindows));
      CompiledCleanly(code, host) && p.Failed? ==> CppCycle(code, host).output == ErrorMessage(p.message)
  {
    DiscoverChoosesFirstAnswering(host);
  }

  // ---------------------------------------------------------------------
  // The stateful cycle
  // ---------------------------------------------------------------------

  /** The process's view of the host: the files on disk and the stages invoked so far. */
  class Machine {
    const host: Host
    var files: map<string, string>
    ghost var trace: seq<Stage>

    constructor (host: Host, files: map<string, string>)
      ensures this.host == host && this.files == files && trace == []
    {
      this.host := host;
      this.files := files;
      trace := [];
    }

    /** `write_output(cpp, path)` (main.py:43-46): writes the code with its fences stripped. */
    method WriteOutput(cpp: string, path: string := SourcePath)
      modifies this`files, this`trace
      ensures files == old(files)[path := StripWrite(cpp)]
      ensures trace == old(trace) + [WriteFile(path, StripWrite(cpp))]
    {
      var code := Remove(Remove(cpp, CppFence), Ticks);
      files := files[path := code];
      trace := trace + [WriteFile(path, code)];
    }

    /** `_find_compiler()` (main.py:137-147). */
    method FindCompiler() returns (r: Result<string, string>)
      modifies this`trace
      ensures r == Discover(host)
      ensures trace == old(trace) + DiscoveryStages(host)
    {
      if host.isWindows {
        return Ok("g++");
      }
      var i := 0;
      while i < |Candidates|
        invariant 0 <= i <= |Candidates|
        invariant forall j :: 0 <= j < i ==> !host.answers(Candidates[j])
        invariant trace == old(trace) + FailedProbes(Candidates[..i])
      {
        var candidate := Candidates[i];
        SkipSilentCandidates(Candidates, host.answers, i);
        trace := trace + [Probe(ProbeCommand(candidate))];
        if host.answers(candidate) {
          return Ok(candidate);
        }
        assert Candidates[..i + 1][..i] == Candidates[..i];
        i := i + 1;
      }
      SkipSilentCandidates(Candidates, host.answers, i);
      return Err(NoCompiler);
    }

    /** `subprocess.run(compile_cmd, ...)`: the compiler reads the source file from disk. */
    method RunCompiler(command: seq<string>) returns (p: Process)
      requires SourcePath in files
      modifies this`trace
      ensures p == host.compile(command, files[SourcePath])
      ensures trace == old(trace) + [Compile(command)]
    {
      trace := trace + [Compile(command)];
      p := host.compile(command, files[SourcePath]);
    }

    /** `subprocess.run(run_cmd, ...)`. */
    method RunProgram(command: seq<string>) returns (p: Process)
      modifies this`trace
      ensures p == host.run(command)
      ensures trace == old(trace) + [Execute(command)]
    {
      trace := trace + [Execute(command)];
      p := host.run(command);
    }

    /** `execute_cpp(code)` (main.py:149-164). */
    method ExecuteCpp(code: string) returns (output: string)
      modifies this`files, this`trace
      ensures files == old(files)[SourcePath := StripWrite(code)]
      ensures output == CppCycle(code, host).output
      ensures trace == old(trace) + CppCycle(code, host).stages
    {
      WriteOutput(code);
      var found := FindCompiler();
      if found.Err? {
        return ErrorMessage(found.error);
      }
      var compiler := found.value;
      var exeName := if host.isWindows then "optimized.exe" else "optimized";
      var compileCmd := [compiler, "-O3", "-std=c++17", "-o", exeName, "optimized.cpp"];
      var compileProc := RunCompiler(compileCmd);
      if compileProc.Failed? {
        return ErrorMessage(compileProc.message);
      }
      if compileProc.returncode != 0 {
        return "Compilation failed with " + compiler + ":\n" + compileProc.stderr;
      }
      var runCmd := if host.isWindows then [exeName] else ["./" + exeName];
      var runProc := RunProgram(runCmd);
      if runProc.Failed? {
        return ErrorMessage(runProc.message);
      }
      if runProc.returncode != 0 {
        return "Program crashed:\n" + runProc.stderr;
      }
      return runProc.stdout;
    }
  }
}
