/** What Docker is asked to do by the command `compile` runs, read back with
    the `docker run` reader of module DockerCli: the isolation and resource
    options, the two mounts, the soft timeout passed in, and how the paths of
    the compiler invocation line up with the mounts and with the path `compile`
    inspects afterwards. */
module Isolation {
  import opened Wrappers
  import opened Platform
  import opened DockerCli
  import opened Sandbox

  /** The security options `basic_secure_docker_command` writes, as spellings. */
  function SecuritySpellings(): (ss: seq<Spelling>)
  {
    [Bare("--rm"),
     Inline("--cap-drop", "ALL"),
     Inline("--cap-add", "DAC_OVERRIDE"),
     Inline("--security-opt", "no-new-privileges")]
  }

  /** The working directory, network, resource and environment options
      `basic_secure_docker_command` writes, as spellings. */
  function ResourceSpellings(): (ss: seq<Spelling>)
  {
    [Separate("--workdir", "/playground"),
     Separate("--net", "none"),
     Separate("--memory", "256m"),
     Separate("--memory-swap", "320m"),
     Separate("--env", TimeoutBinding()),
     Separate("--pids-limit", "512")]
  }

  /** The two mounts `docker_command` adds, as spellings. */
  function VolumeSpellings(inputFile: string, outputDir: string): (ss: seq<Spelling>)
  {
    [Separate("--volume", InputMount(inputFile)),
     Separate("--volume", OutputMount(outputDir))]
  }

  lemma SecurityRendered()
    ensures Render(SecuritySpellings())
         == ["--rm", "--cap-drop=ALL", "--cap-add=DAC_OVERRIDE", "--security-opt=no-new-privileges"]
  {
    assert "--cap-drop" + "=" + "ALL" == "--cap-drop=ALL";
    assert "--cap-add" + "=" + "DAC_OVERRIDE" == "--cap-add=DAC_OVERRIDE";
    assert "--security-opt" + "=" + "no-new-privileges" == "--security-opt=no-new-privileges";
  }

  lemma ResourceRendered()
    ensures Render(ResourceSpellings())
         == ["--workdir", "/playground", "--net", "none", "--memory", "256m", "--memory-swap", "320m",
             "--env", TimeoutBinding(), "--pids-limit", "512"]
  {
    var ss := ResourceSpellings();
    assert ss[5..][1..] == [];
    assert Render(ss[5..]) == ["--pids-limit", "512"];
    assert ss[4..][1..] == ss[5..];
    assert Render(ss[4..]) == ["--env", TimeoutBinding()] + Render(ss[5..]);
    assert ss[3..][1..] == ss[4..];
    assert Render(ss[3..]) == ["--memory-swap", "320m"] + Render(ss[4..]);
    assert ss[2..][1..] == ss[3..];
    assert Render(ss[2..]) == ["--memory", "256m"] + Render(ss[3..]);
    assert ss[1..][1..] == ss[2..];
    assert Render(ss[1..]) == ["--net", "none"] + Render(ss[2..]);
  }

  /** The words after `run` in `basic_secure_docker_command` are the security
      and resource spellings, written out. */
  lemma BasicArgsSpelled()
    ensures BasicSecureDockerArgs() == ["run"] + Render(SecuritySpellings()) + Render(ResourceSpellings())
  {
    SecurityRendered();
    ResourceRendered();
  }

  lemma VolumeArgsSpelled(inputFile: string, outputDir: string)
    ensures VolumeArgs(inputFile, outputDir) == Render(VolumeSpellings(inputFile, outputDir))
  {
    var ss := VolumeSpellings(inputFile, outputDir);
    assert ss[1..][1..] == [];
    assert Render(ss[1..]) == ["--volume", OutputMount(outputDir)];
  }

  lemma SecuritySpellable()
    ensures forall i | 0 <= i < |SecuritySpellings()| :: Spellable(SecuritySpellings()[i])
  {
  }

  lemma ResourceSpellable()
    ensures forall i | 0 <= i < |ResourceSpellings()| :: Spellable(ResourceSpellings()[i])
  {
  }

  lemma VolumeSpellable(inputFile: string, outputDir: string)
    ensures forall i | 0 <= i < |VolumeSpellings(inputFile, outputDir)| :: Spellable(VolumeSpellings(inputFile, outputDir)[i])
  {
  }

  /** The security options, as Docker reads them. */
  function SecurityFlags(): (flags: seq<Flag>)
  {
    [Flag("--rm", None),
     Flag("--cap-drop", Some("ALL")),
     Flag("--cap-add", Some("DAC_OVERRIDE")),
     Flag("--security-opt", Some("no-new-privileges"))]
  }

  /** The working directory, network, resource and environment options, as
      Docker reads them. */
  function ResourceFlags(): (flags: seq<Flag>)
  {
    [Flag("--workdir", Some("/playground")),
     Flag("--net", Some("none")),
     Flag("--memory", Some("256m")),
     Flag("--memory-swap", Some("320m")),
     Flag("--env", Some(TimeoutBinding())),
     Flag("--pids-limit", Some("512"))]
  }

  /** The two mounts, as Docker reads them. */
  function VolumeFlags(inputFile: string, outputDir: string): (flags: seq<Flag>)
  {
    [Flag("--volume", Some(InputMount(inputFile))),
     Flag("--volume", Some(OutputMount(outputDir)))]
  }

  /** The options of the compile command, as Docker reads them, in order. */
  function CompileFlags(inputFile: string, outputDir: string): (flags: seq<Flag>)
  {
    SecurityFlags() + (ResourceFlags() + VolumeFlags(inputFile, outputDir))
  }

  /** The image name is not an option, so reading options stops there. */
  lemma ImageEndsOptions()
    ensures !IsOption(DockerContainerName)
  {
    assert DockerContainerName[0] == 'l';
  }

  /** The compile command is `run`, the three groups of options written out,
      then the image and the compiler invocation. */
  lemma CompileArgsSpelled(inputFile: string, outputDir: string)
    ensures CompileArgs(inputFile, outputDir)[1..]
         == Render(SecuritySpellings()) + (Render(ResourceSpellings())
              + (Render(VolumeSpellings(inputFile, outputDir)) + CompilerArgs()))
  {
    BasicArgsSpelled();
    VolumeArgsSpelled(inputFile, outputDir);
  }

  /** Three groups of spellings in front of a word that is not an option read
      as their options, in order, and leave that word and what follows. */
  lemma ThreeGroupsParse(a: seq<Spelling>, b: seq<Spelling>, c: seq<Spelling>, tail: seq<string>)
    requires forall i | 0 <= i < |a| :: Spellable(a[i])
    requires forall i | 0 <= i < |b| :: Spellable(b[i])
    requires forall i | 0 <= i < |c| :: Spellable(c[i])
    requires tail != [] && !IsOption(tail[0])
    ensures ParseFlags(Render(a) + (Render(b) + (Render(c) + tail)))
         == Some((Meanings(a) + (Meanings(b) + Meanings(c)), tail))
  {
    NonOptionStops(tail);
    RenderParse(c, tail);
    RenderParse(b, Render(c) + tail);
    RenderParse(a, Render(b) + (Render(c) + tail));
    ExtendExtend(Meanings(b), Meanings(c), Some(([], tail)));
    ExtendExtend(Meanings(a), Meanings(b) + Meanings(c), Some(([], tail)));
    assert Meanings(b) + Meanings(c) + [] == Meanings(b) + Meanings(c);
    assert Meanings(a) + (Meanings(b) + Meanings(c)) + [] == Meanings(a) + (Meanings(b) + Meanings(c));
  }

  lemma SecurityMeanings()
    ensures Meanings(SecuritySpellings()) == SecurityFlags()
  {
    assert Meanings([Bare("--rm"), Inline("--cap-drop", "ALL"), Inline("--cap-add", "DAC_OVERRIDE"),
                     Inline("--security-opt", "no-new-privileges")])
        == SecurityFlags();
  }

  lemma ResourceMeanings()
    ensures Meanings(ResourceSpellings()) == ResourceFlags()
  {
    var ss := ResourceSpellings();
    var fs := ResourceFlags();
    assert ss[5..][1..] == [];
    assert Meanings(ss[5..]) == fs[5..];
    assert ss[4..][1..] == ss[5..];
    assert Meanings(ss[4..]) == [fs[4]] + fs[5..];
    assert ss[3..][1..] == ss[4..];
    assert Meanings(ss[3..]) == [fs[3]] + fs[4..];
    assert ss[2..][1..] == ss[3..];
    assert Meanings(ss[2..]) == [fs[2]] + fs[3..];
    assert ss[1..][1..] == ss[2..];
    assert Meanings(ss[1..]) == [fs[1]] + fs[2..];
  }

  lemma VolumeMeanings(inputFile: string, outputDir: string)
    ensures Meanings(VolumeSpellings(inputFile, outputDir)) == VolumeFlags(inputFile, outputDir)
  {
  }

  /** Docker reads the words after `run` in the compile command as exactly the
      options CompileFlags lists, and leaves the image and the compiler
      invocation. */
  lemma CompileOptionsParse(inputFile: string, outputDir: string)
    ensures ParseFlags(CompileArgs(inputFile, outputDir)[1..]) == Some((CompileFlags(inputFile, outputDir), CompilerArgs()))
  {
    CompileArgsSpelled(inputFile, outputDir);
    SecuritySpellable();
    ResourceSpellable();
    VolumeSpellable(inputFile, outputDir);
    ImageEndsOptions();
    ThreeGroupsParse(SecuritySpellings(), ResourceSpellings(), VolumeSpellings(inputFile, outputDir), CompilerArgs());
    SecurityMeanings();
    ResourceMeanings();
    VolumeMeanings(inputFile, outputDir);
  }

  /** Docker reads the compile command as `docker run` with the options
      CompileFlags lists, the image `lowlvl/playground`, and the compiler
      invocation writing `result.wasm` into the output mount. */
  lemma CompileInvocation(inputFile: string, outputDir: string)
    ensures ParseRun("docker", CompileArgs(inputFile, outputDir))
         == Some(RunInvocation(CompileFlags(inputFile, outputDir), DockerContainerName,
                               ["rustc-wasm", "-o", "/playground-result/result.wasm", "input.rs"]))
  {
    CompileOptionsParse(inputFile, outputDir);
    BasicArgsSpelled();
    assert CompileArgs(inputFile, outputDir)[0] == "run";
  }


  /** The values of one option in three groups of options, group by group. */
  lemma LookupThree(a: seq<Flag>, b: seq<Flag>, c: seq<Flag>, name: string)
    ensures Lookup(a + (b + c), name) == Lookup(a, name) + Lookup(b, name) + Lookup(c, name)
  {
    LookupAppend(b, c, name);
    LookupAppend(a, b + c, name);
  }

  /** Exactly two mounts: the source file, then the output directory. */
  lemma ExactlyTwoMounts(inputFile: string, outputDir: string)
    ensures Lookup(CompileFlags(inputFile, outputDir), "--volume")
         == [Some(InputMount(inputFile)), Some(OutputMount(outputDir))]
  {
    LookupThree(SecurityFlags(), ResourceFlags(), VolumeFlags(inputFile, outputDir), "--volume");
  }

  /** Every capability is dropped. */
  lemma CapabilitiesDropped(inputFile: string, outputDir: string)
    ensures Lookup(CompileFlags(inputFile, outputDir), "--cap-drop") == [Some("ALL")]
  {
    LookupThree(SecurityFlags(), ResourceFlags(), VolumeFlags(inputFile, outputDir), "--cap-drop");
  }

  /** Exactly one capability, DAC_OVERRIDE, is added back. */
  lemma OneCapabilityAdded(inputFile: string, outputDir: string)
    ensures Lookup(CompileFlags(inputFile, outputDir), "--cap-add") == [Some("DAC_OVERRIDE")]
  {
    LookupThree(SecurityFlags(), ResourceFlags(), VolumeFlags(inputFile, outputDir), "--cap-add");
  }

  /** The container has no network. */
  lemma NoNetwork(inputFile: string, outputDir: string)
    ensures Lookup(CompileFlags(inputFile, outputDir), "--net") == [Some("none")]
  {
    LookupThree(SecurityFlags(), ResourceFlags(), VolumeFlags(inputFile, outputDir), "--net");
  }

  /** The compiler runs in `/playground`, where the source file is mounted. */
  lemma WorkingDirectory(inputFile: string, outputDir: string)
    ensures Lookup(CompileFlags(inputFile, outputDir), "--workdir") == [Some("/playground")]
  {
    LookupThree(SecurityFlags(), ResourceFlags(), VolumeFlags(inputFile, outputDir), "--workdir");
  }

  /** The one environment binding is the soft timeout. */
  lemma TimeoutPassedIn(inputFile: string, outputDir: string)
    ensures Lookup(CompileFlags(inputFile, outputDir), "--env") == [Some(TimeoutBinding())]
  {
    LookupThree(SecurityFlags(), ResourceFlags(), VolumeFlags(inputFile, outputDir), "--env");
  }

  /** The container reads its timeout back as the soft timeout in whole
      seconds, 10, which is below the hard timeout of 12 seconds the server
      enforces, so the container's own limit is reached first. */
  lemma SoftTimeoutBelowHard()
    ensures EnvBinding(TimeoutBinding()) == Some(("PLAYGROUND_TIMEOUT", FormatNat(DockerProcessTimeoutSoft.AsSecs())))
    ensures ParseNat(EnvBinding(TimeoutBinding()).value.1) == Some(DockerProcessTimeoutSoft.AsSecs())
    ensures DockerProcessTimeoutSoft.AsSecs() == 10 && DockerProcessTimeoutHard.AsSecs() == 12
    ensures FromSecs(DockerProcessTimeoutSoft.AsSecs()).millis < DockerProcessTimeoutHard.millis
  {
    var secs := FormatNat(DockerProcessTimeoutSoft.AsSecs());
    assert TimeoutBinding() == "PLAYGROUND_TIMEOUT" + "=" + secs;
    EnvBindingJoin("PLAYGROUND_TIMEOUT", secs);
    ParseFormatNat(DockerProcessTimeoutSoft.AsSecs());
  }

  lemma InputPathJoined()
    ensures Join("/playground", CompilerArgs()[4]) == "/playground/input.rs"
  {
  }

  lemma ResultPathJoined()
    ensures CompilerArgs()[3] == "/playground-result" + "/" + ResultFileName
  {
  }

  /** Read through the mounts, the compiler's input `input.rs` in the working
      directory is the source file on the host, and its `-o` target is
      `result.wasm` in the output directory on the host: the path `compile`
      looks for afterwards. This holds when the host paths hold no colon; see
      ColonInHostMisread in module DockerCli for what Docker makes of one. */
  lemma MountsLineUp(inputFile: string, outputDir: string)
    requires ':' !in inputFile && ':' !in outputDir
    ensures VolumeMount(InputMount(inputFile)) == Some(Mount(inputFile, "/playground/input.rs", None))
    ensures VolumeMount(OutputMount(outputDir)) == Some(Mount(outputDir, "/playground-result", None))
    ensures var workdir := Lookup(CompileFlags(inputFile, outputDir), "--workdir");
            workdir == [Some("/playground")] &&
            HostPath(Mount(inputFile, "/playground/input.rs", None), Join(workdir[0].value, CompilerArgs()[4])) == Some(inputFile)
    ensures HostPath(Mount(outputDir, "/playground-result", None), CompilerArgs()[3]) == Some(Join(outputDir, ResultFileName))
  {
    MountJoin(inputFile, "/playground/input.rs");
    MountJoin(outputDir, "/playground-result");
    WorkingDirectory(inputFile, outputDir);
    InputPathJoined();
    ResultPathJoined();
    HostPathUnder(Mount(outputDir, "/playground-result", None), ResultFileName);
  }

  /** Docker is given one memory limit, 256m, which reads as 256 MiB. */
  lemma MemoryLimited(inputFile: string, outputDir: string)
    ensures Lookup(CompileFlags(inputFile, outputDir), "--memory") == [Some("256m")]
    ensures ByteSize("256m") == Some(256 * 1024 * 1024)
  {
    LookupThree(SecurityFlags(), ResourceFlags(), VolumeFlags(inputFile, outputDir), "--memory");
    assert "256m"[..3] == "256" && "256"[..2] == "25";
    assert ParseNat("25") == Some(25) by { assert "25"[..1] == "2"; }
  }

  /** Docker is given one limit on memory and swap together, 320m, which reads
      as 320 MiB, so swap adds 64 MiB to the memory limit. */
  lemma SwapLimited(inputFile: string, outputDir: string)
    ensures Lookup(CompileFlags(inputFile, outputDir), "--memory-swap") == [Some("320m")]
    ensures ByteSize("320m") == Some(320 * 1024 * 1024)
  {
    LookupThree(SecurityFlags(), ResourceFlags(), VolumeFlags(inputFile, outputDir), "--memory-swap");
    assert "320m"[..3] == "320" && "320"[..2] == "32";
    assert ParseNat("32") == Some(32) by { assert "32"[..1] == "3"; }
  }

  /** Docker is given one process limit, 512. */
  lemma ProcessesLimited(inputFile: string, outputDir: string)
    ensures Lookup(CompileFlags(inputFile, outputDir), "--pids-limit") == [Some("512")]
    ensures ParseNat("512") == Some(512)
  {
    LookupThree(SecurityFlags(), ResourceFlags(), VolumeFlags(inputFile, outputDir), "--pids-limit");
    assert "512"[..2] == "51";
    assert ParseNat("51") == Some(51) by { assert "51"[..1] == "5"; }
  }

  /** The one process `compile` spawns is `docker run` with the options
      CompileFlags lists, killed when dropped and raced against the hard
      timeout, running `rustc-wasm` in the playground image. */
  lemma SpawnedCommandIsolated(sb: Sandbox)
    ensures CompileSpawn(sb).killOnDrop && CompileSpawn(sb).timeout == DockerProcessTimeoutHard
    ensures ParseRun(CompileSpawn(sb).program, CompileSpawn(sb).args)
         == Some(RunInvocation(CompileFlags(sb.inputFile, sb.outputDir), DockerContainerName,
                               ["rustc-wasm", "-o", "/playground-result/result.wasm", "input.rs"]))
  {
    CompileInvocation(sb.inputFile, sb.outputDir);
  }
}
