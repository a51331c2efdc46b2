/**
 * Command construction of src/compiler.ts: which toolchain binary each
 * language uses, with which arguments, where a compiler writes its output,
 * and how a finished compile settles its promise. Spawning is not modelled
 * here; a command is only described.
 */
module Compiler {
  import opened JsText
  import opened Paths

  /** The executable a command launches: a binary found on PATH, or a file produced by a compiler. */
  datatype Program = Tool(name: string) | Binary(path: FilePath)

  datatype Arg = Word(text: string) | PathArg(path: FilePath)

  /** A spawn/execFile request. `shell` is the spawn option that runs the command through a shell. */
  datatype Command = Command(program: Program, args: seq<Arg>, shell: bool)

  /** What cp.execFile passes to its callback: the error (by its message), and the captured output. */
  datatype ToolRun = ToolRun(error: Option<string>, stdout: string, stderr: string)

  /** A compile step: the command to execute and the path its promise resolves to on success. */
  datatype CompileJob = CompileJob(command: Command, product: FilePath)

  /** `ext.toLowerCase() === '.c'`: only ".c" and ".C" lower-case to ".c". */
  predicate IsCSource(ext: string) {
    ext == ".c" || ext == ".C"
  }

  /** The path the argument vector names right after its first "-o" flag. */
  function OutputTarget(args: seq<Arg>): Option<FilePath> {
    if |args| < 2 then None
    else if args[0] == Word("-o") then (if args[1].PathArg? then Some(args[1].path) else None)
    else OutputTarget(args[1..])
  }

  /**
   * Where compileCode and compileRust write the executable: the source's
   * directory, the source name without `suffix`, plus ".exe" on win32.
   */
  function CompiledOutput(src: FilePath, suffix: string, platform: string): FilePath {
    FilePath(src.dir, ExecutableName(BasenameWithout(src.name, suffix), platform))
  }

  /**
   * The executable sits next to the source; taking off ".exe" (on win32) and
   * putting back the stripped suffix gives the source name again; on win32
   * the name ends in ".exe", and elsewhere it is the bare stem.
   */
  lemma CompiledOutputSpec(src: FilePath, suffix: string, platform: string)
    ensures var out := CompiledOutput(src, suffix, platform);
      && out.dir == src.dir
      && (0 < |suffix| < |src.name| && EndsWith(src.name, suffix) ==>
            ExecutableStem(out.name, platform) + suffix == src.name)
      && (!(0 < |suffix| < |src.name| && EndsWith(src.name, suffix)) ==>
            ExecutableStem(out.name, platform) == src.name)
      && (platform == Win32 <==> EndsWith(out.name, ".exe") && ExecutableStem(out.name, platform) != out.name)
  {
    var stem := BasenameWithout(src.name, suffix);
    ExecutableNameRoundTrip(stem, platform);
    var out := CompiledOutput(src, suffix, platform);
    if platform == Win32 {
      assert out.name[|out.name| - 4..] == ".exe";
    }
    if 0 < |suffix| < |src.name| && EndsWith(src.name, suffix) {
      assert stem + suffix == src.name;
    }
  }

  /** compileCode: gcc for C, g++ (C++17) for every other extension, both at -O2. */
  function CompileCode(src: FilePath, ext: string, platform: string): CompileJob {
    var out := CompiledOutput(src, ext, platform);
    if IsCSource(ext) then
      CompileJob(Command(Tool("gcc"), [PathArg(src), Word("-o"), PathArg(out), Word("-O2"), Word("-lm")], false), out)
    else
      CompileJob(Command(Tool("g++"), [PathArg(src), Word("-o"), PathArg(out), Word("-std=c++17"), Word("-O2")], false), out)
  }

  /**
   * A C/C++ compile reads the source and writes, with "-o", the executable
   * named after it with the extension stripped; C links the math library,
   * C++ selects C++17, and both optimise at -O2.
   */
  lemma CompileCodeSpec(src: FilePath, ext: string, platform: string)
    ensures var job := CompileCode(src, ext, platform);
      && job.product == CompiledOutput(src, ext, platform)
      && job.command.program == Tool(if IsCSource(ext) then "gcc" else "g++")
      && |job.command.args| > 0 && job.command.args[0] == PathArg(src)
      && OutputTarget(job.command.args) == Some(job.product)
      && Word("-O2") in job.command.args
      && (Word("-lm") in job.command.args <==> IsCSource(ext))
      && (Word("-std=c++17") in job.command.args <==> !IsCSource(ext))
      && !job.command.shell
  {
  }

  /** compileRust: rustc writes the executable named after the ".rs" source. */
  function CompileRust(src: FilePath, platform: string): CompileJob {
    var out := CompiledOutput(src, ".rs", platform);
    CompileJob(Command(Tool("rustc"), [PathArg(src), Word("-o"), PathArg(out)], false), out)
  }

  /** rustc reads the source and writes, with "-o", the executable named after it without ".rs". */
  lemma CompileRustSpec(src: FilePath, platform: string)
    ensures var job := CompileRust(src, platform);
      && job.product == CompiledOutput(src, ".rs", platform)
      && job.command.program == Tool("rustc")
      && |job.command.args| > 0 && job.command.args[0] == PathArg(src)
      && OutputTarget(job.command.args) == Some(job.product)
  {
  }

  /** compileJava: javac in UTF-8; the promise resolves to the source path itself. */
  function CompileJava(src: FilePath): CompileJob {
    CompileJob(Command(Tool("javac"), [PathArg(src), Word("-encoding"), Word("UTF-8")], false), src)
  }

  /** javac compiles the source in place, with no "-o", and hands back the source path. */
  lemma CompileJavaSpec(src: FilePath)
    ensures var job := CompileJava(src);
      && job.product == src
      && job.command.program == Tool("javac")
      && |job.command.args| > 0 && job.command.args[0] == PathArg(src)
      && OutputTarget(job.command.args).None?
  {
    var args := CompileJava(src).command.args;
    assert OutputTarget(args[2..]).None?;
    assert args[1..][1..] == args[2..];
  }

  /**
   * The execFile callback shared by the three compile helpers: reject with
   * the first non-empty of stderr, stdout and the error's message; resolve to
   * the job's product when there is no error.
   */
  function Finish(job: CompileJob, run: ToolRun): Result<FilePath> {
    match run.error
    case None => Ok(job.product)
    case Some(message) =>
      Err(if run.stderr != "" then run.stderr else if run.stdout != "" then run.stdout else message)
  }

  /**
   * A compile succeeds exactly when execFile reports no error, with the job's
   * product; a failure carries stderr when there is any, else stdout when
   * there is any, else the error's own message.
   */
  lemma FinishSpec(job: CompileJob, run: ToolRun)
    ensures var r := Finish(job, run);
      && (r.Ok? <==> run.error.None?)
      && (r.Ok? ==> r.value == job.product)
      && (r.Err? ==> r.message in {run.stderr, run.stdout, run.error.value})
      && (r.Err? && run.stderr != "" ==> r.message == run.stderr)
      && (r.Err? && run.stderr == "" && run.stdout != "" ==> r.message == run.stdout)
      && (r.Err? && run.stderr == "" && run.stdout == "" ==> r.message == run.error.value)
  {
  }

  /** runPython: `python` on win32, `python3` elsewhere, with the script as the only argument. */
  function PythonCommand(platform: string, script: FilePath): Command {
    Command(Tool(if platform == Win32 then "python" else "python3"), [PathArg(script)], false)
  }

  /** runExecutable: the compiled file itself, with no arguments. */
  function ExecutableCommand(exe: FilePath): Command {
    Command(Binary(exe), [], false)
  }

  /** runJava: the class named after the source, looked up on the source's directory. */
  function JavaCommand(src: FilePath): Command {
    Command(Tool("java"),
            [Word("-cp"), Word(src.dir), Word("-Dfile.encoding=UTF-8"), Word(BasenameWithout(src.name, ".java"))],
            false)
  }

  function JavaScriptCommand(src: FilePath): Command {
    Command(Tool("node"), [PathArg(src)], false)
  }

  /** runTypeScript goes through a shell on win32, where npx is a .cmd script. */
  function TypeScriptCommand(src: FilePath, platform: string): Command {
    Command(Tool("npx"), [Word("ts-node"), PathArg(src)], platform == Win32)
  }

  function GoCommand(src: FilePath): Command {
    Command(Tool("go"), [Word("run"), PathArg(src)], false)
  }

  /** A command whose interpreter is handed the source file as its last argument. */
  predicate InterpretsSource(cmd: Command, src: FilePath) {
    cmd.program.Tool? && |cmd.args| > 0 && cmd.args[|cmd.args| - 1] == PathArg(src)
    && forall i :: 0 <= i < |cmd.args| - 1 ==> cmd.args[i].Word?
  }

  /** Every interpreted language runs the source file itself, given last and only once as a path. */
  lemma InterpretersRunSource(src: FilePath, platform: string)
    ensures InterpretsSource(PythonCommand(platform, src), src)
    ensures InterpretsSource(JavaScriptCommand(src), src)
    ensures InterpretsSource(TypeScriptCommand(src, platform), src)
    ensures InterpretsSource(GoCommand(src), src)
    ensures PythonCommand(platform, src).program.name == "python" <==> platform == Win32
  {
  }

  /**
   * The file a C/C++ or Rust compile writes with "-o" is the binary the run
   * step launches, and it sits next to the source.
   */
  lemma CompiledBinaryIsWhatRuns(src: FilePath, ext: string, platform: string)
    ensures var job := CompileCode(src, ext, platform);
      && OutputTarget(job.command.args) == Some(ExecutableCommand(job.product).program.path)
      && job.product.dir == src.dir
    ensures var job := CompileRust(src, platform);
      && OutputTarget(job.command.args) == Some(ExecutableCommand(job.product).program.path)
      && job.product.dir == src.dir
  {
    CompileCodeSpec(src, ext, platform);
    CompileRustSpec(src, platform);
    CompiledOutputSpec(src, ext, platform);
    CompiledOutputSpec(src, ".rs", platform);
  }

  /**
   * The Java run step loads the class javac was given: its class path is the
   * source's directory and the class name with ".java" put back is the
   * source's file name.
   */
  lemma JavaRunsCompiledClass(src: FilePath)
    requires EndsWith(src.name, ".java") && |src.name| > 5
    ensures var run := JavaCommand(CompileJava(src).product);
      && run.args[1] == Word(src.dir)
      && run.args[3].text + ".java" == src.name
  {
    var stem := BasenameWithout(src.name, ".java");
    assert stem + ".java" == src.name by {
      assert src.name == src.name[..|src.name| - 5] + src.name[|src.name| - 5..];
    }
  }
}
