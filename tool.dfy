/**
 * The runtime side of a tool plugin (`Tool`, tool.py): its output
 * directory, the capture files and header of `run_command`, the exit-code
 * check, the `ensure` dependency lookup and the `run` dispatch.
 */
module ToolRuntime {
  import opened Common
  import opened Fs
  import opened FileSession

  datatype ToolError =
    | CommandFailed(kind: string, code: int)          // a non-zero exit code
    | Missing(location: string, variable: string)      // `ensure` found no such entry
    | UnknownLocation(location: string)                // `ensure` with another scope
    | CommandNotFound(command: string)                 // `run` on a missing attribute
    | TimedOut(kind: string)                           // `communicate` gave up waiting

  /** What `ensure` hands back: an environment value, a parameter or a task file. */
  datatype Requirement = EnvValue(text: string) | ParamValue(param: Value) | FileValue(file: FileSlot)

  /** `task_output / f"{type}_{name}"` */
  function OutputDirOf(taskOutput: Path, toolType: string, name: string): Path {
    Join(taskOutput, toolType + "_" + name)
  }

  /** The output directory is the entry `{type}_{name}` of the task's output directory. */
  lemma OutputDirPlacement(taskOutput: Path, toolType: string, name: string)
    requires '/' !in toolType && '/' !in name
    ensures Name(OutputDirOf(taskOutput, toolType, name)) == toolType + "_" + name
    ensures DirPart(OutputDirOf(taskOutput, toolType, name)) == taskOutput + "/"
  {
    assert '/' !in toolType + "_" + name;
    NameOfJoin(taskOutput, toolType + "_" + name);
  }

  /** `f"{type}_{name}_{kind}_{stream}.txt"` */
  function CaptureName(toolType: string, name: string, kind: string, stream: string): string {
    toolType + "_" + name + "_" + kind + "_" + stream + ".txt"
  }

  /** For one tool and one stream, different command labels capture to different files. */
  lemma {:induction false} CaptureNameInjective(toolType: string, name: string, k1: string, k2: string, stream: string)
    requires CaptureName(toolType, name, k1, stream) == CaptureName(toolType, name, k2, stream)
    ensures k1 == k2
  {
    var pre := toolType + "_" + name + "_";
    var post := "_" + stream + ".txt";
    var c1 := CaptureName(toolType, name, k1, stream);
    var c2 := CaptureName(toolType, name, k2, stream);
    assert c1 == pre + k1 + post;
    assert c2 == pre + k2 + post;
    assert |k1| == |k2|;
    assert k1 == c1[|pre|..|pre| + |k1|];
    assert k2 == c2[|pre|..|pre| + |k2|];
  }

  /** The stdout and stderr capture files of one command are different files. */
  lemma {:induction false} CapturePathsDistinct(dir: Path, toolType: string, name: string, kind: string)
    ensures Join(dir, CaptureName(toolType, name, kind, "stdout")) != Join(dir, CaptureName(toolType, name, kind, "stderr"))
  {
    var pre := toolType + "_" + name + "_" + kind + "_";
    var o := CaptureName(toolType, name, kind, "stdout");
    var e := CaptureName(toolType, name, kind, "stderr");
    assert o == pre + "stdout.txt" && e == pre + "stderr.txt";
    assert o[|pre| + 3] == 'o' && e[|pre| + 3] == 'e';
    assert |o| == |e|;
    assert o[0] == pre[0] == e[0];
    var jo := Join(dir, o);
    var je := Join(dir, e);
    if !IsAbsolute(o) {
      assert jo[|dir| + 1 + |pre| + 3] == 'o';
      assert je[|dir| + 1 + |pre| + 3] == 'e';
    }
  }

  /** The 45 dashes closing a capture header. */
  function Dashes(): (r: string)
    ensures |r| == 45 && forall i :: 0 <= i < |r| ==> r[i] == '-'
  {
    seq(45, _ => '-')
  }

  /** The text `run_command` writes at the top of a capture file. */
  function Header(stream: string, command: string, time: string): string {
    stream + "\n" + ("command: " + command + "\n" + ("Time: " + time + "\n" + (Dashes() + "\n" + "\n")))
  }

  /**
   * A header read back line by line: the stream name, the command, the time,
   * the dashes and a blank line (for a command and time on one line).
   */
  lemma HeaderLines(stream: string, command: string, time: string)
    requires '\n' !in stream && '\n' !in command && '\n' !in time
    ensures Lines(Header(stream, command, time))
         == [stream + "\n", "command: " + command + "\n", "Time: " + time + "\n", Dashes() + "\n", "\n"]
  {
    var ls := [stream + "\n", "command: " + command + "\n", "Time: " + time + "\n", Dashes() + "\n", "\n"];
    assert Concat(ls[4..]) == "\n" by { assert ls[4..][1..] == []; }
    assert Concat(ls[3..]) == Dashes() + "\n" + "\n" by { assert ls[3..][1..] == ls[4..]; }
    assert Concat(ls[2..]) == "Time: " + time + "\n" + (Dashes() + "\n" + "\n") by { assert ls[2..][1..] == ls[3..]; }
    assert Concat(ls[1..]) == "command: " + command + "\n" + ("Time: " + time + "\n" + (Dashes() + "\n" + "\n")) by {
      assert ls[1..][1..] == ls[2..];
    }
    assert Concat(ls) == Header(stream, command, time);
    forall i | 0 <= i < |ls|
      ensures IsLine(ls[i]) && ls[i][|ls[i]| - 1] == '\n'
    {
      var l := ls[i];
      assert l[..|l| - 1] == [stream, "command: " + command, "Time: " + time, Dashes(), ""][i];
    }
    LinesOfConcat(ls);
  }

  /** The exit-code check after the process finished. */
  function CheckExit(kind: string, code: int): (r: Outcome<ToolError>)
    ensures r == Pass <==> code == 0
    ensures r.Fail? ==> r.error == CommandFailed(kind, code)
  {
    if code != 0 then Fail(CommandFailed(kind, code)) else Pass
  }

  /** How `communicate()` returned: the process exited with a code, or the wait timed out. */
  datatype Wait = Exited(code: int) | Expired

  /**
   * The outcome of a command after the wait: the exit-code check, or the
   * `TimeoutExpired` handler, which kills the process and fails the command.
   */
  function WaitOutcome(kind: string, w: Wait): (r: Outcome<ToolError>)
    ensures r == Pass <==> w == Exited(0)
    ensures w.Expired? ==> r == Fail(TimedOut(kind))
    ensures w.Exited? && w.code != 0 ==> r == Fail(CommandFailed(kind, w.code))
  {
    if w.Expired? then Fail(TimedOut(kind)) else CheckExit(kind, w.code)
  }

  /**
   * `communicate()` as written, without a timeout: it waits until the
   * process exits, however long it runs.
   */
  function CommunicateAsWritten(code: int, elapsed: nat): (w: Wait) {
    Exited(code)
  }

  /** As written, no command ever reaches the `TimeoutExpired` handler. */
  lemma TimeoutHandlerUnreachable(kind: string, code: int, elapsed: nat)
    ensures WaitOutcome(kind, CommunicateAsWritten(code, elapsed)) != Fail(TimedOut(kind))
  {
  }

  /** `communicate(timeout=limit)`: a process still running after `limit` seconds expires the wait. */
  function Communicate(code: int, elapsed: nat, limit: nat): (w: Wait) {
    if elapsed > limit then Expired else Exited(code)
  }

  /** With a timeout, a command fails as timed out exactly when it outlives the limit. */
  lemma TimeoutReported(kind: string, code: int, elapsed: nat, limit: nat)
    ensures WaitOutcome(kind, Communicate(code, elapsed, limit)) == Fail(TimedOut(kind)) <==> elapsed > limit
    ensures elapsed <= limit ==> WaitOutcome(kind, Communicate(code, elapsed, limit)) == CheckExit(kind, code)
  {
  }

  /** `tool.run(name)`: the member called, if any, and how the call ended. */
  datatype Dispatch = Dispatch(calls: seq<string>, outcome: Outcome<ToolError>)

  class Tool {
    const fs: FileSystem
    const toolType: string
    const name: string
    const taskName: string
    const taskPath: Path
    const taskOutput: Path
    /** The task's file table, read by `ensure("file", …)`. */
    const taskFiles: Dict<string, FileSlot>
    const params: Dict<string, Value>
    const env: Dict<string, string>
    /** Every attribute name an instance of the plugin class answers `hasattr` for. */
    const attributes: set<string>
    const outputDir: Path

    /** `Tool.__init__`: record the task's fields and create the output directory. */
    constructor (fs: FileSystem, toolType: string, name: string, taskName: string, taskPath: Path, taskOutput: Path,
                 taskFiles: Dict<string, FileSlot>, params: Dict<string, Value>, env: Dict<string, string>,
                 attributes: set<string>)
      modifies fs
      ensures this.fs == fs && this.toolType == toolType && this.name == name
      ensures this.taskName == taskName && this.taskPath == taskPath && this.taskOutput == taskOutput
      ensures this.taskFiles == taskFiles && this.params == params && this.env == env
      ensures this.attributes == attributes
      ensures outputDir == OutputDirOf(taskOutput, toolType, name)
      ensures fs.dirs == old(fs.dirs) + {outputDir} && fs.files == old(fs.files)
    {
      this.fs := fs;
      this.toolType := toolType;
      this.name := name;
      this.taskName := taskName;
      this.taskPath := taskPath;
      this.taskOutput := taskOutput;
      this.taskFiles := taskFiles;
      this.params := params;
      this.env := env;
      this.attributes := attributes;
      outputDir := OutputDirOf(taskOutput, toolType, name);
      new;
      fs.MakeDirs(outputDir);
    }

    function StdoutPath(kind: string): Path {
      Join(outputDir, CaptureName(toolType, name, kind, "stdout"))
    }

    function StderrPath(kind: string): Path {
      Join(outputDir, CaptureName(toolType, name, kind, "stderr"))
    }

    /**
     * `run_command(command, kind)` with the process abstracted: the two
     * header timestamps, the process's output on each stream (up to its
     * exit, or up to the kill after a timeout) and how the wait ended are
     * given.
     */
    method RunCommand(command: string, kind: string, timeOut: string, timeErr: string,
                      stdoutText: string, stderrText: string, wait: Wait)
      returns (r: Outcome<ToolError>)
      modifies fs
      ensures r == WaitOutcome(kind, wait)
      ensures fs.files == old(fs.files)[StdoutPath(kind) := Header("stdout", command, timeOut) + stdoutText]
                                       [StderrPath(kind) := Header("stderr", command, timeErr) + stderrText]
      ensures fs.dirs == old(fs.dirs)
    {
      var out := StdoutPath(kind);
      var err := StderrPath(kind);
      CapturePathsDistinct(outputDir, toolType, name, kind);
      fs.Write(out, Header("stdout", command, timeOut));
      fs.Write(err, Header("stderr", command, timeErr));
      fs.Append(out, stdoutText);
      fs.Append(err, stderrText);
      r := WaitOutcome(kind, wait);
    }

    /** `ensure(loc, variable)`: look a dependency up in one of the three scopes. */
    function Ensure(loc: string, variable: string): (r: Result<Requirement, ToolError>)
      ensures loc == "env" ==>
        if variable in env.items then r == Ok(EnvValue(env.items[variable])) else r == Err(Missing(loc, variable))
      ensures loc == "params" ==>
        if variable in params.items then r == Ok(ParamValue(params.items[variable])) else r == Err(Missing(loc, variable))
      ensures loc == "file" ==>
        if variable in taskFiles.items then r == Ok(FileValue(taskFiles.items[variable])) else r == Err(Missing(loc, variable))
      ensures loc !in {"env", "params", "file"} ==> r == Err(UnknownLocation(loc))
    {
      if loc == "env" then
        if variable in env.items then Ok(EnvValue(env.items[variable])) else Err(Missing(loc, variable))
      else if loc == "params" then
        if variable in params.items then Ok(ParamValue(params.items[variable])) else Err(Missing(loc, variable))
      else if loc == "file" then
        if variable in taskFiles.items then Ok(FileValue(taskFiles.items[variable])) else Err(Missing(loc, variable))
      else Err(UnknownLocation(loc))
    }

    /**
     * `run(command)`: without such an attribute nothing is called and the
     * call fails; otherwise that member is called once and its outcome
     * (given) is the outcome of `run`.
     */
    function Run(command: string, memberOutcome: Outcome<ToolError>): (d: Dispatch)
      ensures command !in attributes ==> d.calls == [] && d.outcome == Fail(CommandNotFound(command))
      ensures command in attributes ==> d.calls == [command] && d.outcome == memberOutcome
    {
      if command !in attributes then Dispatch([], Fail(CommandNotFound(command)))
      else Dispatch([command], memberOutcome)
    }
  }
}
