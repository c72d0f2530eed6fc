/** The Docker-sandboxed `rustc-wasm` compile of `src/sandbox.rs`: the error
    taxonomy, the compile response, the three command builders, the set-up of the
    scratch directory and the source file, and the classification of the
    compiler run into a response or a typed error.

    Each effectful operation is a method over the host (see module Platform); its
    contract ties what it returns and the effects it performs to a pure
    specification function of the host's oracle, and those functions state in
    their own contracts what the sandbox decides. */
module Sandbox {
  import opened Wrappers
  import opened Platform

  const DockerContainerName: string := "lowlvl/playground"
  const DockerProcessTimeoutSoft: Duration := FromSecs(10)
  const DockerProcessTimeoutHard: Duration := FromSecs(12)

  /** The file `rustc-wasm` is told to write, inside the output mount, and the name
      `compile` looks for in the output directory. */
  const ResultFileName: string := "result.wasm"

  /** The note appended to the compiler's standard error when no artifact was written. */
  const MissingOutputNote: string := "\nUnable to locate output file"

  datatype Error =
    | UnableToCreateTempDir(source: IoError)
    | UnableToCreateOutputDir(source: IoError)
    | UnableToSetOutputPermissions(source: IoError)
    | UnableToCreateSourceFile(source: IoError)
    | UnableToSetSourcePermissions(source: IoError)
    | UnableToExecuteCompiler(source: IoError)
    | CompilerExecutionTimedOut(timeout: Duration)
    | UnableToReadOutput(source: IoError)
    | OutputNotUtf8(utf8: FromUtf8Error)
    | OutputMissing

  datatype CompileResponse = CompileResponse(success: bool, wasm: Option<File>, stdout: string, stderr: string)

  /** What an effectful operation returns, together with the effects it performs, in order. */
  datatype Traced<T> = Traced(result: Result<T, Error>, effects: seq<Effect>)

  /** Mode 0o777: read, write and execute for owner, group and others, and none of
      the set-user-ID, set-group-ID or sticky bits. */
  function WideOpenPermissions(): (mode: Mode)
    ensures mode & 0x1FF == 0x1FF
    ensures mode >> 9 == 0
  {
    0x1FF
  }

  // ---------------------------------------------------------------------------
  // Command construction

  /** The environment binding that tells the container its soft timeout, in
      whole seconds. */
  function TimeoutBinding(): (binding: string)
  {
    "PLAYGROUND_TIMEOUT=" + FormatNat(DockerProcessTimeoutSoft.AsSecs())
  }

  /** The arguments `basic_secure_docker_command` gives `docker`. */
  function BasicSecureDockerArgs(): (args: seq<string>)
  {
    ["run", "--rm", "--cap-drop=ALL", "--cap-add=DAC_OVERRIDE", "--security-opt=no-new-privileges",
     "--workdir", "/playground", "--net", "none", "--memory", "256m", "--memory-swap", "320m",
     "--env", TimeoutBinding(), "--pids-limit", "512"]
  }

  /** The mount binding the source file on the host to the compiler's input. */
  function InputMount(inputFile: string): (spec: string)
  {
    inputFile + ":" + "/playground/input.rs"
  }

  /** The mount binding the output directory on the host to the compiler's
      output directory. */
  function OutputMount(outputDir: string): (spec: string)
  {
    outputDir + ":" + "/playground-result"
  }

  /** The two `--volume` options `docker_command` adds: the source file and the
      output directory, each bound to its fixed path in the container. */
  function VolumeArgs(inputFile: string, outputDir: string): (args: seq<string>)
  {
    ["--volume", InputMount(inputFile), "--volume", OutputMount(outputDir)]
  }

  /** The image and the compiler invocation `compile_command` adds last. */
  function CompilerArgs(): (args: seq<string>)
  {
    [DockerContainerName, "rustc-wasm", "-o", "/playground-result/result.wasm", "input.rs"]
  }

  function DockerArgs(inputFile: string, outputDir: string): (args: seq<string>)
  {
    BasicSecureDockerArgs() + VolumeArgs(inputFile, outputDir)
  }

  function CompileArgs(inputFile: string, outputDir: string): (args: seq<string>)
  {
    DockerArgs(inputFile, outputDir) + CompilerArgs()
  }

  /** `basic_secure_docker_command`: `docker run` with the security and resource
      options, killed when dropped. */
  method BasicSecureDockerCommand() returns (cmd: Command)
    ensures fresh(cmd)
    ensures cmd.program == "docker" && cmd.args == BasicSecureDockerArgs() && cmd.killOnDrop
  {
    cmd := new Command("docker");
    cmd.Arg("run");
    cmd.Arg("--rm");
    cmd.Arg("--cap-drop=ALL");
    cmd.Arg("--cap-add=DAC_OVERRIDE");
    cmd.Arg("--security-opt=no-new-privileges");
    assert cmd.args == ["run", "--rm", "--cap-drop=ALL", "--cap-add=DAC_OVERRIDE", "--security-opt=no-new-privileges"];
    cmd.Args(["--workdir", "/playground"]);
    cmd.Args(["--net", "none"]);
    cmd.Args(["--memory", "256m"]);
    cmd.Args(["--memory-swap", "320m"]);
    cmd.Args(["--env", TimeoutBinding()]);
    cmd.Args(["--pids-limit", "512"]);
    cmd.KillOnDrop(true);
  }

  // ---------------------------------------------------------------------------
  // Running the compiler

  /** The result mapping of `run_command_with_timeout`: an elapsed deadline is a
      timeout error carrying the deadline, a process that could not be run or
      waited for is an execution error, and a finished process gives its output. */
  function RunResult(race: Timed<Result<Output, IoError>>, timeout: Duration): (r: Result<Output, Error>)
    ensures race.Elapsed? <==> r == Err(CompilerExecutionTimedOut(timeout))
    ensures (race.Completed? && race.value.Err?) <==> r.Err? && r.error.UnableToExecuteCompiler?
    ensures r.Err? && r.error.UnableToExecuteCompiler? ==> r.error.source == race.value.error
    ensures r.Ok? ==> race == Completed(Ok(r.value))
    ensures race.Completed? && race.value.Ok? ==> r.Ok?
  {
    match race
    case Elapsed => Err(CompilerExecutionTimedOut(timeout))
    case Completed(Err(e)) => Err(UnableToExecuteCompiler(e))
    case Completed(Ok(output)) => Ok(output)
  }

  /** `run_command_with_timeout`: runs the command under the hard timeout. */
  method RunCommandWithTimeout(host: Host, command: Command) returns (r: Result<Output, Error>)
    modifies host
    ensures host.trace == old(host.trace) + [Spawn(command.program, command.args, command.killOnDrop, DockerProcessTimeoutHard)]
    ensures r == RunResult(host.oracle.race, DockerProcessTimeoutHard)
  {
    var timeout := DockerProcessTimeoutHard;
    var raced := host.Output(command, timeout);
    match raced
    case Elapsed =>
      r := Err(CompilerExecutionTimedOut(timeout));
    case Completed(Err(e)) =>
      r := Err(UnableToExecuteCompiler(e));
    case Completed(Ok(output)) =>
      r := Ok(output);
  }

  /** `vec_to_str`: the bytes as text, or `OutputNotUtf8` handing the bytes back. */
  function VecToStr(decodeUtf8: seq<byte> -> Option<string>, v: seq<byte>): (r: Result<string, Error>)
    ensures r.Ok? <==> decodeUtf8(v).Some?
    ensures r.Ok? ==> r.value == decodeUtf8(v).value
    ensures r.Err? ==> r.error == OutputNotUtf8(FromUtf8Error(v))
  {
    match decodeUtf8(v)
    case Some(text) => Ok(text)
    case None => Err(OutputNotUtf8(FromUtf8Error(v)))
  }

  /** `read`: opens the artifact, reporting a failure as `UnableToReadOutput`. */
  method Read(host: Host, path: string) returns (r: Result<File, Error>)
    modifies host
    ensures host.trace == old(host.trace) + [OpenFile(path)]
    ensures OpenResult(host.oracle, path).Ok? ==> r == Ok(OpenResult(host.oracle, path).value)
    ensures OpenResult(host.oracle, path).Err? ==> r == Err(UnableToReadOutput(OpenResult(host.oracle, path).error))
  {
    var f := host.Open(path);
    match f
    case Ok(file) => r := Ok(file);
    case Err(e) => r := Err(UnableToReadOutput(e));
  }

  // ---------------------------------------------------------------------------
  // Specification of the set-up and of the compile

  /** True when the effects include running a process. */
  predicate Spawned(effects: seq<Effect>)
  {
    exists i | 0 <= i < |effects| :: effects[i].Spawn?
  }

  /** True when the effects include looking at or opening a file. */
  predicate Examined(effects: seq<Effect>)
  {
    exists i | 0 <= i < |effects| :: effects[i].Stat? || effects[i].OpenFile?
  }

  lemma SpawnedAppend(a: seq<Effect>, b: seq<Effect>)
    ensures Spawned(a + b) <==> Spawned(a) || Spawned(b)
  {
    if Spawned(a + b) {
      var i :| 0 <= i < |a + b| && (a + b)[i].Spawn?;
      if i >= |a| {
        assert b[i - |a|].Spawn?;
      }
    }
    if Spawned(b) {
      var i :| 0 <= i < |b| && b[i].Spawn?;
      assert (a + b)[|a| + i].Spawn?;
    }
    if Spawned(a) {
      var i :| 0 <= i < |a| && a[i].Spawn?;
      assert (a + b)[i].Spawn?;
    }
  }

  lemma ExaminedAppend(a: seq<Effect>, b: seq<Effect>)
    ensures Examined(a + b) <==> Examined(a) || Examined(b)
  {
    if Examined(a + b) {
      var i :| 0 <= i < |a + b| && ((a + b)[i].Stat? || (a + b)[i].OpenFile?);
      if i >= |a| {
        assert b[i - |a|] == (a + b)[i];
      } else {
        assert a[i] == (a + b)[i];
      }
    }
    if Examined(b) {
      var i :| 0 <= i < |b| && (b[i].Stat? || b[i].OpenFile?);
      assert (a + b)[|a| + i] == b[i];
    }
    if Examined(a) {
      var i :| 0 <= i < |a| && (a[i].Stat? || a[i].OpenFile?);
      assert (a + b)[i] == a[i];
    }
  }

  /** The steps of a set-up that stops at its first failure: every step before the
      last succeeded. */
  predicate StopsAtFirstFailure(o: Oracle, effects: seq<Effect>)
  {
    forall i | 0 <= i < |effects| - 1 :: effects[i] !in o.faults
  }

  /** What `Sandbox::new` returns and does. */
  function NewOutcome(o: Oracle): (r: Traced<Sandbox>)
    // it runs nothing and examines no file
    ensures !Spawned(r.effects) && !Examined(r.effects)
    // the effects are a prefix of the three set-up steps, and stop at the first failure
    ensures var out := Join(o.scratch, "output");
            1 <= |r.effects| && r.effects <= [MakeTempDir("playground"), MakeDir(out), Chmod(out, WideOpenPermissions())]
    ensures StopsAtFirstFailure(o, r.effects)
    // it fails exactly when its last step failed, with that step's error variant
    ensures var last := r.effects[|r.effects| - 1];
            r.result.Err? <==> last in o.faults
    ensures var last := r.effects[|r.effects| - 1];
            r.result.Err? ==> r.result.error == (match last
                                                 case MakeTempDir(_) => UnableToCreateTempDir(o.faults[last])
                                                 case MakeDir(_) => UnableToCreateOutputDir(o.faults[last])
                                                 case _ => UnableToSetOutputPermissions(o.faults[last]))
    // on success: all three steps ran, and the paths lie in the scratch directory
    ensures r.result.Ok? ==> |r.effects| == 3
    ensures r.result.Ok? ==> r.result.value == Sandbox(o.scratch, Join(o.scratch, "input.rs"), Join(o.scratch, "output"))
  {
    var made := MakeTempDir("playground");
    match Attempt(o, made)
    case Err(e) => Traced(Err(UnableToCreateTempDir(e)), [made])
    case Ok(_) =>
      var inputFile := Join(o.scratch, "input.rs");
      var outputDir := Join(o.scratch, "output");
      var mkdir := MakeDir(outputDir);
      match Attempt(o, mkdir)
      case Err(e) => Traced(Err(UnableToCreateOutputDir(e)), [made, mkdir])
      case Ok(_) =>
        var chmod := Chmod(outputDir, WideOpenPermissions());
        match Attempt(o, chmod)
        case Err(e) => Traced(Err(UnableToSetOutputPermissions(e)), [made, mkdir, chmod])
        case Ok(_) => Traced(Ok(Sandbox(o.scratch, inputFile, outputDir)), [made, mkdir, chmod])
  }

  /** What `write_source_code` returns and does. */
  function WriteSourceOutcome(o: Oracle, sb: Sandbox, code: string): (r: Traced<()>)
    ensures !Spawned(r.effects) && !Examined(r.effects)
    // the source is written before its mode is set, and a failed write stops there
    ensures 1 <= |r.effects| && r.effects <= [WriteFile(sb.inputFile, code), Chmod(sb.inputFile, WideOpenPermissions())]
    ensures StopsAtFirstFailure(o, r.effects)
    ensures var last := r.effects[|r.effects| - 1];
            r.result.Err? <==> last in o.faults
    ensures var last := r.effects[|r.effects| - 1];
            r.result.Err? ==> r.result.error == (if last.WriteFile? then UnableToCreateSourceFile(o.faults[last])
                                                 else UnableToSetSourcePermissions(o.faults[last]))
    ensures r.result.Ok? ==> |r.effects| == 2
  {
    var write := WriteFile(sb.inputFile, code);
    match Attempt(o, write)
    case Err(e) => Traced(Err(UnableToCreateSourceFile(e)), [write])
    case Ok(_) =>
      var chmod := Chmod(sb.inputFile, WideOpenPermissions());
      match Attempt(o, chmod)
      case Err(e) => Traced(Err(UnableToSetSourcePermissions(e)), [write, chmod])
      case Ok(_) => Traced(Ok(()), [write, chmod])
  }

  /** True when both captured streams are valid UTF-8. */
  predicate Decodes(o: Oracle, output: Output)
  {
    o.decodeUtf8(output.stdout).Some? && o.decodeUtf8(output.stderr).Some?
  }

  /** What `compile` makes of a finished compiler run. */
  function ClassifyOutput(o: Oracle, outputDir: string, output: Output): (r: Traced<CompileResponse>)
    ensures !Spawned(r.effects)
    // stdout is decoded first, then stderr; a stream that is not UTF-8 is an
    // error handing its bytes back, and then no file is examined
    ensures o.decodeUtf8(output.stdout).None? ==> r == Traced(Err(OutputNotUtf8(FromUtf8Error(output.stdout))), [])
    ensures o.decodeUtf8(output.stdout).Some? && o.decodeUtf8(output.stderr).None? ==>
              r == Traced(Err(OutputNotUtf8(FromUtf8Error(output.stderr))), [])
    // with both decoded, the fixed artifact path is looked up, and opened only if it exists
    ensures var artifact := Join(outputDir, ResultFileName);
            Decodes(o, output) ==>
              r.effects == if artifact in o.disk then [Stat(artifact), OpenFile(artifact)] else [Stat(artifact)]
    // the only other error: the artifact exists but cannot be opened
    ensures var artifact := Join(outputDir, ResultFileName);
            Decodes(o, output) ==>
              (r.result.Err? <==> artifact in o.disk && o.disk[artifact].Err?)
    ensures var artifact := Join(outputDir, ResultFileName);
            Decodes(o, output) && r.result.Err? ==> r.result.error == UnableToReadOutput(o.disk[artifact].error)
    // a response: success is the exit status whether or not there is an artifact,
    // and stdout is the decoded stdout
    ensures r.result.Ok? ==> r.result.value.success == output.status.Success()
    ensures r.result.Ok? ==> r.result.value.stdout == o.decodeUtf8(output.stdout).value
    // the artifact is present exactly when the file exists, and then it is the opened file
    ensures var artifact := Join(outputDir, ResultFileName);
            r.result.Ok? ==> (r.result.value.wasm.Some? <==> artifact in o.disk)
    ensures var artifact := Join(outputDir, ResultFileName);
            r.result.Ok? && r.result.value.wasm.Some? ==> o.disk[artifact] == Ok(r.result.value.wasm.value)
    // stderr is unchanged with an artifact and carries the note without one
    ensures r.result.Ok? ==>
              r.result.value.stderr == o.decodeUtf8(output.stderr).value + (if r.result.value.wasm.None? then MissingOutputNote else "")
  {
    var artifact := Join(outputDir, ResultFileName);
    match VecToStr(o.decodeUtf8, output.stdout)
    case Err(e) => Traced(Err(e), [])
    case Ok(stdout) =>
      match VecToStr(o.decodeUtf8, output.stderr)
      case Err(e) => Traced(Err(e), [])
      case Ok(stderr) =>
        if artifact in o.disk then
          match OpenResult(o, artifact)
          case Err(e) => Traced(Err(UnableToReadOutput(e)), [Stat(artifact), OpenFile(artifact)])
          case Ok(f) =>
            Traced(Ok(CompileResponse(output.status.Success(), Some(f), stdout, stderr)), [Stat(artifact), OpenFile(artifact)])
        else
          Traced(Ok(CompileResponse(output.status.Success(), None, stdout, stderr + MissingOutputNote)), [Stat(artifact)])
  }

  /** The one process `compile` runs. */
  function CompileSpawn(sb: Sandbox): (spawn: Effect)
  {
    Spawn("docker", CompileArgs(sb.inputFile, sb.outputDir), true, DockerProcessTimeoutHard)
  }

  /** What `compile` returns and does. */
  function CompileOutcome(o: Oracle, sb: Sandbox, code: string): (r: Traced<CompileResponse>)
    // a command runs exactly when the source was written and its mode set, and
    // then those two steps come first and the compile command third
    ensures Spawned(r.effects) <==> WriteSourceOutcome(o, sb, code).result.Ok?
    ensures Spawned(r.effects) ==>
              |r.effects| >= 3 &&
              r.effects[..3] == [WriteFile(sb.inputFile, code), Chmod(sb.inputFile, WideOpenPermissions()), CompileSpawn(sb)]
    ensures !Spawned(r.effects) ==>
              (r.result.Err? && (r.result.error.UnableToCreateSourceFile? || r.result.error.UnableToSetSourcePermissions?))
    // a failed write or chmod is returned as it is, after exactly the steps attempted
    ensures WriteSourceOutcome(o, sb, code).result.Err? ==>
              r == Traced(Err(WriteSourceOutcome(o, sb, code).result.error), WriteSourceOutcome(o, sb, code).effects)
    // a deadline that passes is reported as the hard timeout, and nothing is examined
    ensures Spawned(r.effects) && o.race.Elapsed? ==>
              r.result == Err(CompilerExecutionTimedOut(DockerProcessTimeoutHard)) && |r.effects| == 3
    ensures Spawned(r.effects) && o.race.Completed? && o.race.value.Err? ==>
              r.result == Err(UnableToExecuteCompiler(o.race.value.error)) && |r.effects| == 3
    // files are examined only after a finished run whose output is text
    ensures Examined(r.effects) <==>
              Spawned(r.effects) && o.race.Completed? && o.race.value.Ok? && Decodes(o, o.race.value.value)
    // the compile command is the only process, run once
    ensures forall i | 0 <= i < |r.effects| && r.effects[i].Spawn? :: i == 2 && r.effects[i] == CompileSpawn(sb)
    // a response always comes from a finished run
    ensures r.result.Ok? ==>
              (Spawned(r.effects) && o.race.Completed? && o.race.value.Ok? &&
               r.result.value.success == o.race.value.value.status.Success())
    // after a finished run, the outcome is what ClassifyOutput makes of it
    ensures Spawned(r.effects) && o.race.Completed? && o.race.value.Ok? ==>
              r.result == ClassifyOutput(o, sb.outputDir, o.race.value.value).result &&
              r.effects[3..] == ClassifyOutput(o, sb.outputDir, o.race.value.value).effects
  {
    var written := WriteSourceOutcome(o, sb, code);
    if written.result.Err? then Traced(Err(written.result.error), written.effects)
    else
      var ran := written.effects + [CompileSpawn(sb)];
      SpawnedAppend(written.effects, [CompileSpawn(sb)]);
      ExaminedAppend(written.effects, [CompileSpawn(sb)]);
      assert [CompileSpawn(sb)][0].Spawn?;
      match RunResult(o.race, DockerProcessTimeoutHard)
      case Err(e) => Traced(Err(e), ran)
      case Ok(output) =>
        var classified := ClassifyOutput(o, sb.outputDir, output);
        SpawnedAppend(ran, classified.effects);
        ExaminedAppend(ran, classified.effects);
        assert Decodes(o, output) ==> classified.effects[0].Stat?;
        Traced(classified.result, ran + classified.effects)
  }

  // ---------------------------------------------------------------------------
  // The sandbox

  /** `Sandbox::new`: creates the scratch directory and the world-writable output
      directory inside it. */
  method New(host: Host) returns (r: Result<Sandbox, Error>)
    modifies host
    ensures r == NewOutcome(host.oracle).result
    ensures host.trace == old(host.trace) + NewOutcome(host.oracle).effects
  {
    var scratch := host.TempDirNew("playground");
    if scratch.Err? {
      return Err(UnableToCreateTempDir(scratch.error));
    }
    var inputFile := Join(scratch.value, "input.rs");
    var outputDir := Join(scratch.value, "output");

    var created := host.CreateDir(outputDir);
    if created.Err? {
      return Err(UnableToCreateOutputDir(created.error));
    }
    var widened := host.SetPermissions(outputDir, WideOpenPermissions());
    if widened.Err? {
      return Err(UnableToSetOutputPermissions(widened.error));
    }
    return Ok(Sandbox(scratch.value, inputFile, outputDir));
  }

  /** The scratch directory (whose removal on drop is not modelled), and the
      source file and output directory inside it. */
  datatype Sandbox = Sandbox(scratch: string, inputFile: string, outputDir: string)
  {
    /** `compile`: writes the source, runs the compiler under the hard timeout and
        classifies what it left behind. */
    method Compile(host: Host, code: string) returns (r: Result<CompileResponse, Error>)
      modifies host
      ensures r == CompileOutcome(host.oracle, this, code).result
      ensures host.trace == old(host.trace) + CompileOutcome(host.oracle, this, code).effects
    {
      var written := WriteSourceCode(host, code);
      if written.Err? {
        return Err(written.error);
      }

      var command := CompileCommand();
      var output := RunCommandWithTimeout(host, command);
      if output.Err? {
        return Err(output.error);
      }

      var file := Join(outputDir, ResultFileName);

      var stdout := VecToStr(host.oracle.decodeUtf8, output.value.stdout);
      if stdout.Err? {
        return Err(stdout.error);
      }
      var decodedStderr := VecToStr(host.oracle.decodeUtf8, output.value.stderr);
      if decodedStderr.Err? {
        return Err(decodedStderr.error);
      }
      var stderr := decodedStderr.value;

      var wasm: Option<File>;
      var found := host.Exists(file);
      if found {
        var artifactFile := Read(host, file);
        if artifactFile.Err? {
          return Err(artifactFile.error);
        }
        wasm := Some(artifactFile.value);
      } else {
        stderr := stderr + MissingOutputNote;
        wasm := None;
      }

      return Ok(CompileResponse(output.value.status.Success(), wasm, stdout.value, stderr));
    }

    /** `write_source_code`: writes the source file and makes it world-writable. */
    method WriteSourceCode(host: Host, code: string) returns (r: Result<(), Error>)
      modifies host
      ensures r == WriteSourceOutcome(host.oracle, this, code).result
      ensures host.trace == old(host.trace) + WriteSourceOutcome(host.oracle, this, code).effects
    {
      var written := host.Write(inputFile, code);
      if written.Err? {
        return Err(UnableToCreateSourceFile(written.error));
      }
      var widened := host.SetPermissions(inputFile, WideOpenPermissions());
      if widened.Err? {
        return Err(UnableToSetSourcePermissions(widened.error));
      }
      return Ok(());
    }

    /** `compile_command`: the Docker command followed by the image and the compiler
        invocation. */
    method CompileCommand() returns (cmd: Command)
      ensures fresh(cmd)
      ensures cmd.program == "docker" && cmd.args == CompileArgs(inputFile, outputDir) && cmd.killOnDrop
    {
      cmd := DockerCommand();
      cmd.Arg(DockerContainerName);
      cmd.Arg("rustc-wasm");
      cmd.Args(["-o", "/playground-result/result.wasm"]);
      cmd.Arg("input.rs");
    }

    /** `docker_command`: the secure base command with the two volume mounts. */
    method DockerCommand() returns (cmd: Command)
      ensures fresh(cmd)
      ensures cmd.program == "docker" && cmd.args == DockerArgs(inputFile, outputDir) && cmd.killOnDrop
    {
      var mountInputFile := inputFile;
      mountInputFile := mountInputFile + ":";
      mountInputFile := mountInputFile + "/playground/input.rs";

      var mountOutputDir := outputDir;
      mountOutputDir := mountOutputDir + ":";
      mountOutputDir := mountOutputDir + "/playground-result";

      cmd := BasicSecureDockerCommand();
      cmd.Arg("--volume");
      cmd.Arg(mountInputFile);
      cmd.Arg("--volume");
      cmd.Arg(mountOutputDir);
    }
  }
}
