/** The environment the sandbox runs in: the parts of the Rust standard library,
    `tempdir` and `tokio` that `src/sandbox.rs` calls, reduced to what the sandbox
    can observe of them.

    Nothing here models how the operating system behaves. Every outcome (which
    operation fails and with what error, how the compiler run ends, which files
    exist afterwards, whether a byte string is valid UTF-8) is read from an
    `Oracle` value, and every operation the sandbox attempts is appended to the
    host's `trace`, so that the order of effects and their absence can be stated. */
module Platform {
  import opened Wrappers

  newtype byte = b: int | 0 <= b < 0x100

  /** A Unix permission mode, as given to `PermissionsExt::from_mode`. */
  type Mode = bv32

  /** `std::io::Error`, kept opaque: the raw OS error code. */
  datatype IoError = IoError(code: int)

  /** The error `File::open` reports for a path that does not exist (ENOENT). */
  const NotFound: IoError := IoError(2)

  /** An open `std::fs::File`. */
  datatype File = File(descriptor: nat)

  /** `std::process::ExitStatus` on Unix: a normal exit with a code, or death by a signal. */
  datatype ExitStatus = Exited(code: int) | Signaled(signal: nat)
  {
    /** `ExitStatus::success`: the process exited normally with code zero. */
    predicate Success(): (ok: bool)
      ensures ok ==> Exited? && code == 0
      ensures this == Exited(0) ==> ok
      ensures Signaled? ==> !ok
      ensures Exited? && code != 0 ==> !ok
    {
      Exited? && code == 0
    }
  }

  /** `std::process::Output`: the exit status and the captured streams. */
  datatype Output = Output(status: ExitStatus, stdout: seq<byte>, stderr: seq<byte>)

  /** `std::time::Duration`, at millisecond resolution. */
  datatype Duration = Duration(millis: nat)
  {
    /** `Duration::as_secs`: whole seconds, truncated. */
    function AsSecs(): (secs: nat)
      ensures secs * 1000 <= millis < (secs + 1) * 1000
    {
      millis / 1000
    }
  }

  /** `Duration::from_secs`. */
  function FromSecs(secs: nat): (d: Duration)
    ensures d.AsSecs() == secs
    ensures d.millis % 1000 == 0
  {
    Duration(secs * 1000)
  }

  /** What `tokio::time::timeout` yields: the deadline elapsed before the wrapped
      future finished, or the future completed first with its value. */
  datatype Timed<T> = Elapsed | Completed(value: T)

  /** `std::string::FromUtf8Error`: it hands back the bytes that failed to decode. */
  datatype FromUtf8Error = FromUtf8Error(bytes: seq<byte>)

  function DigitChar(d: nat): (c: char)
    requires d < 10
    ensures '0' <= c <= '9'
  {
    ('0' as int + d) as char
  }

  /** The decimal rendering `format!("{}", n)` gives a `u64`: digits only, and no
      leading zero unless the number is zero itself. */
  function FormatNat(n: nat): (s: string)
    ensures |s| >= 1
    ensures forall i | 0 <= i < |s| :: '0' <= s[i] <= '9'
    ensures s[0] == '0' ==> n == 0 && s == "0"
    decreases n
  {
    if n < 10 then [DigitChar(n)] else FormatNat(n / 10) + [DigitChar(n % 10)]
  }

  /** `Path::join` and `PathBuf::push` with a relative, separator-free name onto a
      directory path that does not end in a separator. */
  function Join(dir: string, name: string): (path: string)
    ensures |path| == |dir| + 1 + |name|
    ensures path[..|dir|] == dir && path[|dir|] == '/' && path[|dir| + 1..] == name
  {
    dir + "/" + name
  }

  /** One operation the sandbox attempts on its host, in the order it attempts them. */
  datatype Effect =
    | MakeTempDir(prefix: string)                   // TempDir::new
    | MakeDir(path: string)                         // fs::create_dir
    | Chmod(path: string, mode: Mode)               // fs::set_permissions
    | WriteFile(path: string, contents: string)     // fs::write
    | Spawn(program: string, args: seq<string>, killOnDrop: bool, timeout: Duration)
                                                    // Command::output under tokio::time::timeout
    | Stat(path: string)                            // Path::exists
    | OpenFile(path: string)                        // File::open

  /** Everything the host decides for the sandbox. */
  datatype Oracle = Oracle(
    // the uniquely named directory TempDir::new creates when it succeeds
    scratch: string,
    // the file-system operations that fail, with the error each one returns
    faults: map<Effect, IoError>,
    // how the race between the compiler run and its deadline ends
    race: Timed<Result<Output, IoError>>,
    // after the run: the paths that exist, and what opening each of them gives
    disk: map<string, Result<File, IoError>>,
    // String::from_utf8: the text a byte string decodes to, or None if it is not UTF-8
    decodeUtf8: seq<byte> -> Option<string>)

  /** The outcome of a file-system operation that either succeeds or fails with an `io::Error`. */
  function Attempt(o: Oracle, e: Effect): (r: Result<(), IoError>)
  {
    if e in o.faults then Err(o.faults[e]) else Ok(())
  }

  /** `File::open` after the run: the handle or error the disk holds, and ENOENT for a missing path. */
  function OpenResult(o: Oracle, path: string): (r: Result<File, IoError>)
  {
    if path in o.disk then o.disk[path] else Err(NotFound)
  }

  /** `tokio::process::Command`: a program and the argument list its builder
      methods append to. */
  class Command {
    const program: string
    var args: seq<string>
    var killOnDrop: bool

    /** `Command::new(program)`. */
    constructor (program: string)
      ensures this.program == program && args == [] && !killOnDrop
    {
      this.program := program;
      args := [];
      killOnDrop := false;
    }

    /** `Command::arg`: appends one argument. */
    method Arg(arg: string)
      modifies this
      ensures args == old(args) + [arg] && killOnDrop == old(killOnDrop)
    {
      args := args + [arg];
    }

    /** `Command::args`: appends several arguments, in order. */
    method Args(more: seq<string>)
      modifies this
      ensures args == old(args) + more && killOnDrop == old(killOnDrop)
    {
      args := args + more;
    }

    /** `Command::kill_on_drop`. */
    method KillOnDrop(kill: bool)
      modifies this
      ensures killOnDrop == kill && args == old(args)
    {
      killOnDrop := kill;
    }
  }

  /** The host: its decisions, and the record of what the sandbox asked of it. */
  class Host {
    const oracle: Oracle
    var trace: seq<Effect>

    constructor (oracle: Oracle)
      ensures this.oracle == oracle && trace == []
    {
      this.oracle := oracle;
      trace := [];
    }

    /** `TempDir::new(prefix)`: the fresh scratch directory, or the error creating it. */
    method TempDirNew(prefix: string) returns (r: Result<string, IoError>)
      modifies this
      ensures trace == old(trace) + [MakeTempDir(prefix)]
      ensures r == match Attempt(oracle, MakeTempDir(prefix))
                   case Ok(_) => Ok(oracle.scratch)
                   case Err(e) => Err(e)
    {
      trace := trace + [MakeTempDir(prefix)];
      var made := Attempt(oracle, MakeTempDir(prefix));
      if made.Err? {
        return Err(made.error);
      }
      return Ok(oracle.scratch);
    }

    /** `fs::create_dir(path)`. */
    method CreateDir(path: string) returns (r: Result<(), IoError>)
      modifies this
      ensures trace == old(trace) + [MakeDir(path)]
      ensures r == Attempt(oracle, MakeDir(path))
    {
      trace := trace + [MakeDir(path)];
      r := Attempt(oracle, MakeDir(path));
    }

    /** `fs::set_permissions(path, Permissions::from_mode(mode))`. */
    method SetPermissions(path: string, mode: Mode) returns (r: Result<(), IoError>)
      modifies this
      ensures trace == old(trace) + [Chmod(path, mode)]
      ensures r == Attempt(oracle, Chmod(path, mode))
    {
      trace := trace + [Chmod(path, mode)];
      r := Attempt(oracle, Chmod(path, mode));
    }

    /** `fs::write(path, contents)`. */
    method Write(path: string, contents: string) returns (r: Result<(), IoError>)
      modifies this
      ensures trace == old(trace) + [WriteFile(path, contents)]
      ensures r == Attempt(oracle, WriteFile(path, contents))
    {
      trace := trace + [WriteFile(path, contents)];
      r := Attempt(oracle, WriteFile(path, contents));
    }

    /** `tokio::time::timeout(timeout, command.output())`: runs the command to
        completion, or gives up when the deadline passes first. */
    method Output(command: Command, timeout: Duration) returns (r: Timed<Result<Output, IoError>>)
      modifies this
      ensures trace == old(trace) + [Spawn(command.program, command.args, command.killOnDrop, timeout)]
      ensures r == oracle.race
    {
      trace := trace + [Spawn(command.program, command.args, command.killOnDrop, timeout)];
      r := oracle.race;
    }

    /** `Path::exists`. */
    method Exists(path: string) returns (b: bool)
      modifies this
      ensures trace == old(trace) + [Stat(path)]
      ensures b == (path in oracle.disk)
    {
      trace := trace + [Stat(path)];
      b := path in oracle.disk;
    }

    /** `File::open`. */
    method Open(path: string) returns (r: Result<File, IoError>)
      modifies this
      ensures trace == old(trace) + [OpenFile(path)]
      ensures r == OpenResult(oracle, path)
    {
      trace := trace + [OpenFile(path)];
      r := OpenResult(oracle, path);
    }
  }
}
