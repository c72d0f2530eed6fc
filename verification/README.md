# A verified model of the LowLevelAcademy playground sandbox

The playground server compiles untrusted Rust to WebAssembly. It does this by
running `rustc-wasm` inside a locked-down Docker container (`src/sandbox.rs`).
This project models that sandbox in Dafny and proves what it decides:

- **Command construction** (`basic_secure_docker_command`, `docker_command`,
  `compile_command`). A `Command` is a class whose argument list its methods
  append to. Each builder is a method proved to produce exactly the argument
  list of the source, in order.
- **Set-up** (`Sandbox::new`, `write_source_code`). Each is a method that
  performs its steps in order and stops at the first failure. Every failing
  step maps to its own error variant.
- **Running and classifying** (`run_command_with_timeout`, `compile`, `read`,
  `vec_to_str`). These turn the end of the compiler run into a
  `CompileResponse` or a typed `Error`.

The environment is the `Host` class of module `Platform`. It covers the file
system, Docker through tokio, and UTF-8 decoding. Every outcome the operating
system would decide is read from an `Oracle` value:

- which operation fails, and with what `io::Error`;
- how the race between the compiler and its deadline ends;
- which files exist after the run;
- what a byte string decodes to.

Every operation the sandbox attempts is appended to the host's `trace`. Each
effectful method is proved against a pure specification function of the
oracle: `NewOutcome`, `WriteSourceOutcome`, `CompileOutcome` and
`ClassifyOutput`. The method returns that function's result and appends that
function's effects. The functions' own contracts state what the sandbox
promises. Examples:

- nothing runs unless set-up succeeded;
- effects stop at the first failure;
- a timeout is reported with the hard timeout;
- no file is examined when the output is not UTF-8;
- `success` is the exit status whether or not an artifact exists;
- the artifact is present exactly when `output/result.wasm` exists and opens;
- the missing-output note is appended to stderr exactly when it is absent.

Module `DockerCli` is an independent reading of a `docker run` command line.
It splits options (`--name`, `--name=value`, `--name value`) from the image and
the command, splits volume specifications and environment bindings, and reads
numbers and memory sizes. It also has a writer for option spellings, with a
proved round trip (`RenderParse`). Module `Isolation` applies the reader to the
command `compile` runs and proves what Docker is asked to do:

- exactly these options in this order;
- exactly two mounts;
- all capabilities dropped and exactly one added back;
- no network;
- the soft timeout passed in reads back as 10 seconds, below the 12-second hard
  timeout;
- the compiler's `-o` target, seen through the output mount, is the host path
  `compile` inspects.

Files: `wrappers.dfy` (Option, Result), `platform.dfy`, `docker_cli.dfy`,
`sandbox.dfy`, `isolation.dfy`.

The doc comment at `src/sandbox.rs:117-118` says the compiler's output is found
as "the first with the right extension". The code checks the fixed name
`result.wasm` (`src/sandbox.rs:119-121`). The model follows the code.

## Model

| member | source | states |
|---|---|---|
| Platform.FromSecs | src/sandbox.rs:20-21 | `Duration::from_secs` gives back its whole seconds and has no sub-second part |
| Platform.ExitStatus.Success | src/sandbox.rs:140 | `ExitStatus::success`: true exactly for a normal exit with code 0; a non-zero exit or death by a signal is not success |
| Platform.Duration.AsSecs | src/sandbox.rs:217 | `Duration::as_secs`: the whole seconds, truncated, so the duration lies in `[secs, secs + 1)` seconds |
| Platform.Join | src/sandbox.rs:96-97 | `Path::join` and `PathBuf::push` of a relative name: the directory, one `/`, then the name |
| Platform.FormatNat | src/sandbox.rs:215-218 | the `{}` rendering of a `u64` is all decimal digits, with no leading zero except for 0 itself |
| Platform.Command.constructor | src/sandbox.rs:202 | `Command::new("docker")` starts with no arguments and no kill-on-drop |
| Platform.Command.Arg | src/sandbox.rs:204-208 | `.arg` appends exactly one argument and changes nothing else |
| Platform.Command.Args | src/sandbox.rs:209-220 | `.args` appends the given arguments in order and changes nothing else |
| Platform.Command.KillOnDrop | src/sandbox.rs:222 | `kill_on_drop` sets the flag and leaves the arguments alone |
| Platform.Host.TempDirNew | src/sandbox.rs:95 | records the attempt; gives the scratch directory, or the error the host reports for it |
| Platform.Host.CreateDir | src/sandbox.rs:99 | records the attempt and gives the host's outcome for it |
| Platform.Host.SetPermissions | src/sandbox.rs:100-101 | records the attempt and gives the host's outcome for it |
| Platform.Host.Write | src/sandbox.rs:148 | records the attempt and gives the host's outcome for it |
| Platform.Host.Output | src/sandbox.rs:87 | records the spawn, with its arguments, kill-on-drop and timeout; gives how the race with the deadline ended |
| Platform.Host.Exists | src/sandbox.rs:126 | records the lookup; true exactly when the path exists after the run |
| Platform.Host.Open | src/sandbox.rs:194 | records the open; gives the file, or the host's error, or ENOENT for a missing path |
| Sandbox.WideOpenPermissions | src/sandbox.rs:80-82 | the mode grants read, write and execute to owner, group and others, and sets no set-id or sticky bit |
| Sandbox.BasicSecureDockerCommand | src/sandbox.rs:201-225 | a fresh `docker` command whose arguments are exactly `run`, the security options, workdir, network, memory, swap, the timeout binding and the process limit, in source order; killed on drop |
| Sandbox.Sandbox.DockerCommand | src/sandbox.rs:173-190 | the base command followed by `--volume input_file:/playground/input.rs --volume output_dir:/playground-result` |
| Sandbox.Sandbox.CompileCommand | src/sandbox.rs:160-171 | the Docker command followed by `lowlvl/playground rustc-wasm -o /playground-result/result.wasm input.rs` |
| Sandbox.RunResult | src/sandbox.rs:84-91 | a passed deadline is exactly a `CompilerExecutionTimedOut` carrying the deadline; a failed launch or wait is exactly `UnableToExecuteCompiler` with its error; otherwise the raw output |
| Sandbox.RunCommandWithTimeout | src/sandbox.rs:84-91 | spawns the command once under the 12-second hard timeout and returns `RunResult` of the race |
| Sandbox.VecToStr | src/sandbox.rs:227-229 | succeeds exactly when the bytes are UTF-8, with the decoded text; otherwise `OutputNotUtf8` handing the bytes back |
| Sandbox.Read | src/sandbox.rs:193-199 | opens the path once; an open failure is `UnableToReadOutput` with the host's error |
| Sandbox.NewOutcome | src/sandbox.rs:94-108 | runs nothing and examines nothing; attempts temp dir, then output dir, then its mode 0o777, stopping at the first failure; fails exactly when the last attempted step failed, with that step's variant; on success the paths are `input.rs` and `output` in the scratch directory |
| Sandbox.New | src/sandbox.rs:94-108 | returns `NewOutcome`'s result and performs exactly its effects |
| Sandbox.WriteSourceOutcome | src/sandbox.rs:147-158 | runs nothing and examines nothing; writes the source, then sets mode 0o777, stopping at the first failure; each failure has its own variant |
| Sandbox.Sandbox.WriteSourceCode | src/sandbox.rs:147-158 | returns `WriteSourceOutcome`'s result and performs exactly its effects |
| Sandbox.ClassifyOutput | src/sandbox.rs:117-144 | stdout is decoded before stderr, and a decoding failure means no file is examined; only `output_dir/result.wasm` is looked up, and it is opened only if it exists; an open failure is `UnableToReadOutput`; `success` is the exit status whatever happened to the artifact; stdout is the decoded stdout; `wasm` is present exactly when the file exists; stderr gets the missing-output note exactly when `wasm` is absent |
| Sandbox.CompileOutcome | src/sandbox.rs:110-145 | a command runs exactly when the source was written and its mode set; a failed write or chmod is returned as `write_source_code`'s own error, variant and `io::Error`, after exactly the steps it attempted; then those two steps come first and the compile command third; a passed deadline is the hard timeout with nothing examined; files are examined exactly after a finished run whose output is UTF-8; the compile command is the only process, spawned once as the third effect; a response always comes from a finished run and carries its exit status; after a finished run, result and remaining effects are exactly `ClassifyOutput`'s |
| Sandbox.Sandbox.Compile | src/sandbox.rs:110-145 | returns `CompileOutcome`'s result and performs exactly its effects |
| DockerCli.ParseFlags | src/sandbox.rs:204-220 | Docker's reading of the options after `run`: what is left is no longer than the input and does not start with an option |
| DockerCli.ParseRun | src/sandbox.rs:160-171 | a well-formed `docker run` has program `docker`, first argument `run`, and an image that is not an option |
| DockerCli.RenderParse | src/sandbox.rs:204-220 | options written as `--name`, `--name=value` or `--name value` read back as those options, whatever follows them |
| DockerCli.ParseFormatNat | src/sandbox.rs:215-218 | reading back a `{}`-formatted number gives the number |
| DockerCli.EnvBindingJoin | src/sandbox.rs:215-218 | `NAME=value` splits back into NAME and value when NAME has no `=` |
| DockerCli.VolumeMount | src/sandbox.rs:174-180 | Docker's reading of a `SRC:DST[:MODE]` volume: host path and container path hold no colon, and the parts joined back with colons give the specification; one without a colon is no bind mount |
| DockerCli.MountJoin | src/sandbox.rs:174-180 | a mount `host:target` built as the source builds it reads back as a bind of `host` on `target` with no mode, when neither path holds a colon |
| DockerCli.ColonInHostMisread | src/sandbox.rs:174-180 | a host path holding a colon is cut at it: `a:b:target` reads as a bind of `a` on `b`, with `target` taken as the mode |
| DockerCli.HostPathUnder | src/sandbox.rs:165 | a container path under a mount point denotes the same relative path under the host side |
| Isolation.BasicArgsSpelled | src/sandbox.rs:204-220 | the base arguments are `run` followed by the security and resource options, each spelled as Docker expects |
| Isolation.CompileOptionsParse | src/sandbox.rs:160-225 | Docker reads the words after `run` as exactly `CompileFlags`, and leaves the image and compiler invocation |
| Isolation.CompileInvocation | src/sandbox.rs:160-225 | Docker sees `docker run` with exactly `CompileFlags`, the image `lowlvl/playground`, and `rustc-wasm -o /playground-result/result.wasm input.rs` |
| Isolation.SpawnedCommandIsolated | src/sandbox.rs:113-115 | the spawn `compile` performs (its only one, by `CompileOutcome`) is that invocation, killed on drop and raced against the hard timeout |
| Isolation.ExactlyTwoMounts | src/sandbox.rs:183-187 | exactly two mounts, in order: the source file, then the output directory |
| Isolation.CapabilitiesDropped | src/sandbox.rs:206 | capabilities are dropped once, with value ALL |
| Isolation.OneCapabilityAdded | src/sandbox.rs:207 | exactly one capability is added back: DAC_OVERRIDE |
| Isolation.NoNetwork | src/sandbox.rs:210 | the only network setting is `none` |
| Isolation.WorkingDirectory | src/sandbox.rs:209 | the only working directory is `/playground` |
| Isolation.TimeoutPassedIn | src/sandbox.rs:213-219 | the only environment binding is the soft-timeout binding |
| Isolation.SoftTimeoutBelowHard | src/sandbox.rs:20-21 | the binding reads back as `PLAYGROUND_TIMEOUT` = the soft timeout's seconds, 10, which is below the 12-second hard timeout |
| Isolation.MountsLineUp | src/sandbox.rs:174-180 | for host paths without a colon: through the mounts, the compiler's `input.rs`, taken in the one working directory the `--workdir` option gives Docker, is the host source file, and the `-o` target is `output_dir/result.wasm` on the host, the path `compile` looks for |
| Isolation.MemoryLimited | src/sandbox.rs:211 | Docker is given exactly one memory limit, `256m`, which reads as 256 MiB |
| Isolation.SwapLimited | src/sandbox.rs:212 | Docker is given exactly one memory-plus-swap limit, `320m`, which reads as 320 MiB |
| Isolation.ProcessesLimited | src/sandbox.rs:220 | Docker is given exactly one process limit, `512`, which reads as 512 |

## Left out

- Removal of the scratch directory when the `Sandbox` is dropped is not modelled. Neither is `TempDir`'s choice of a unique name: the oracle supplies the path.
- What the operating system does is not modelled. The oracle decides the outcome of every file-system call and of the compiler run.
- `kill_on_drop` is recorded on the command and in the spawn effect. Killing the process when the timeout drops the future is not modelled, because that is tokio's machinery. The run is one step whose outcome the oracle decides.
- `String::from_utf8` is an abstract decoder supplied by the oracle. RFC 3629 is not implemented.
- `Path::exists` is membership in the oracle's post-run disk map. A path whose metadata cannot be read counts as missing, as in Rust.
- `CompilerExecutionTimedOut` carries only the deadline. Its `tokio::time::Elapsed` source carries no information.
- `log::debug!` calls and the Snafu display strings are not modelled.
- The `VersionReleaseMissing`, `VersionHashMissing` and `VersionDateMissing` variants are unused by the sandbox and are not modelled.
- `OutputMissing` is declared but never produced by the sandbox.
- `src/main.rs` is not part of this model.
- `Join` is path joining of a relative, separator-free name onto a directory. That is the only kind of join the sandbox performs.
- The oracle's scratch path is unconstrained. `Join` assumes a non-empty directory path without a trailing `/`, which `TempDir::new` always gives. For an empty or `/`-terminated scratch path the model's joins differ from `Path::join`: they give `/input.rs` and `dir//input.rs` where Rust gives `input.rs` and `dir/input.rs`.
- DockerCli reads only the option forms the sandbox writes. It reads a volume as `SRC:DST[:MODE]`, split at colons as Docker does, but does not check the mode against Docker's list of access modes, nor model named volumes.
- The source joins the scratch path into the volume specification as it is, with no escaping (`src/sandbox.rs:174-180`). A scratch directory whose path holds a colon, which a `TMPDIR` holding one would give, is misread by Docker: `ColonInHostMisread` shows the cut. Docker then refuses the specification, because the leftover container path is not a valid mode and the cut target is not an absolute path. So `docker` exits non-zero, and `compile` reports `success` false with the missing-output note: a sandbox failure that looks like a compile error in the user's code. That refusal is not modelled. `MountsLineUp` therefore requires host paths without a colon, and the model does not promise that the mounts line up otherwise.
- How Docker and the kernel enforce the options is not modelled. The model proves what Docker is asked for, not what the container can then do.
- Duration is kept at millisecond resolution. That is enough for the two whole-second timeouts.
