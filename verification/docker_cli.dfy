/** How `docker run` reads the argument list it is given: the subcommand, the
    options in order (each with its value, if it has one), the image, and the
    command to run inside the container. This is the reading the sandbox's
    command builders are checked against; it covers the option forms the
    sandbox uses (`--name`, `--name=value` and `--name value`), and it reads
    volume specifications, memory sizes and decimal numbers the way Docker does
    for the values that occur here. */
module DockerCli {
  import opened Wrappers
  import opened Platform

  /** One option as Docker receives it: `--rm` has no value, `--cap-add=X` and
      `--net none` both carry one. */
  datatype Flag = Flag(name: string, value: Option<string>)

  /** A parsed `docker run [OPTIONS] IMAGE [COMMAND] [ARG...]`. */
  datatype RunInvocation = RunInvocation(flags: seq<Flag>, image: string, command: seq<string>)

  predicate IsOption(word: string)
  {
    |word| > 2 && word[..2] == "--"
  }

  /** The `docker run` options that the sandbox writes with their value as the
      next word. */
  const SeparateValueOptions: set<string> :=
    {"--workdir", "--net", "--memory", "--memory-swap", "--env", "--pids-limit", "--volume"}

  /** The position of the first `c` in `s` at or after `from`, or `|s|` when
      there is none. */
  function IndexFrom(s: string, c: char, from: nat): (k: nat)
    requires from <= |s|
    ensures from <= k <= |s|
    ensures k < |s| ==> s[k] == c
    ensures forall i | from <= i < k :: s[i] != c
    decreases |s| - from
  {
    if from == |s| || s[from] == c then from else IndexFrom(s, c, from + 1)
  }

  /** The position of the first `c` in `s`, or `|s|` when there is none. */
  function IndexOf(s: string, c: char): (k: nat)
    ensures k <= |s|
    ensures k < |s| ==> s[k] == c
    ensures forall i | 0 <= i < k :: s[i] != c
  {
    IndexFrom(s, c, 0)
  }

  /** Puts `flags` in front of the options of a parse result. */
  function Extend(flags: seq<Flag>, r: Option<(seq<Flag>, seq<string>)>): (extended: Option<(seq<Flag>, seq<string>)>)
  {
    match r
    case None => None
    case Some((more, words)) => Some((flags + more, words))
  }

  /** Reads the option at the front of `words`: the option and the number of
      words it takes (one, or two when its value is the next word), or None when
      the value it needs is missing. */
  function ReadOption(words: seq<string>): (r: Option<(Flag, nat)>)
    requires words != [] && IsOption(words[0])
    ensures r.Some? ==> 1 <= r.value.1 <= |words| && r.value.1 <= 2
  {
    var word := words[0];
    var k := IndexOf(word, '=');
    if k < |word| then Some((Flag(word[..k], Some(word[k + 1..])), 1))
    else if word in SeparateValueOptions then
      if |words| < 2 then None else Some((Flag(word, Some(words[1])), 2))
    else Some((Flag(word, None), 1))
  }

  /** Reads options from the front of `words` until the first word that is not an
      option; gives the options and the words left over, or None when an option
      that needs a separate value is the last word. */
  function ParseFlags(words: seq<string>): (r: Option<(seq<Flag>, seq<string>)>)
    ensures r.Some? ==> |r.value.1| <= |words|
    ensures r.Some? && r.value.1 != [] ==> !IsOption(r.value.1[0])
    decreases |words|
  {
    if words == [] || !IsOption(words[0]) then Some(([], words))
    else
      match ReadOption(words)
      case None => None
      case Some((flag, n)) => Extend([flag], ParseFlags(words[n..]))
  }

  /** The invocation `program args` denotes, when it is a well-formed `docker run`. */
  function ParseRun(program: string, args: seq<string>): (r: Option<RunInvocation>)
    ensures r.Some? ==> program == "docker" && |args| >= 2 && args[0] == "run"
    ensures r.Some? ==> |r.value.command| < |args| - 1 && !IsOption(r.value.image)
  {
    if program != "docker" || args == [] || args[0] != "run" then None
    else
      match ParseFlags(args[1..])
      case None => None
      case Some((flags, rest)) =>
        if rest == [] then None else Some(RunInvocation(flags, rest[0], rest[1..]))
  }

  /** The values of every occurrence of option `name`, in order. */
  function Lookup(flags: seq<Flag>, name: string): (vs: seq<Option<string>>)
    ensures |vs| <= |flags|
  {
    if flags == [] then []
    else (if flags[0].name == name then [flags[0].value] else []) + Lookup(flags[1..], name)
  }

  lemma ExtendNothing(r: Option<(seq<Flag>, seq<string>)>)
    ensures Extend([], r) == r
  {
    if r.Some? {
      assert [] + r.value.0 == r.value.0;
    }
  }

  lemma ExtendExtend(f: seq<Flag>, g: seq<Flag>, r: Option<(seq<Flag>, seq<string>)>)
    ensures Extend(f, Extend(g, r)) == Extend(f + g, r)
  {
    if r.Some? {
      assert f + (g + r.value.0) == (f + g) + r.value.0;
    }
  }

  /** A word without `=` has none to find. */
  lemma IndexOfAbsent(s: string, c: char)
    requires c !in s
    ensures IndexOf(s, c) == |s|
  {
  }

  /** The first `c` of `before c after` is the one after `before` when `before`
      has none. */
  lemma {:induction false} IndexOfAfter(before: string, c: char, after: string)
    requires c !in before
    ensures IndexOf(before + [c] + after, c) == |before|
    decreases |before|
  {
    var s := before + [c] + after;
    if before != [] {
      assert s[0] == before[0];
      assert s[1..] == before[1..] + [c] + after;
      IndexOfAfter(before[1..], c, after);
    }
  }

  /** `--name=value` in front of more options reads as the option `name`
      carrying `value`, then those options. */
  lemma InlineOption(name: string, value: string, rest: seq<string>)
    requires IsOption(name) && '=' !in name
    ensures ParseFlags([name + "=" + value] + rest) == Extend([Flag(name, Some(value))], ParseFlags(rest))
  {
    var word := name + "=" + value;
    var words := [word] + rest;
    IndexOfAfter(name, '=', value);
    assert words[0] == word && words[1..] == rest;
    assert word[..2] == name[..2];
    assert word[..|name|] == name && word[|name| + 1..] == value;
    assert ReadOption(words) == Some((Flag(name, Some(value)), 1));
  }

  /** `--name value` in front of more options reads as the option `name`
      carrying `value`, for an option that takes its value as the next word. */
  lemma SeparateOption(name: string, value: string, rest: seq<string>)
    requires IsOption(name) && '=' !in name && name in SeparateValueOptions
    ensures ParseFlags([name, value] + rest) == Extend([Flag(name, Some(value))], ParseFlags(rest))
  {
  }

  /** `--name` in front of more options reads as the option `name` without a
      value, then those options. */
  lemma BareOption(name: string, rest: seq<string>)
    requires IsOption(name) && '=' !in name && name !in SeparateValueOptions
    ensures ParseFlags([name] + rest) == Extend([Flag(name, None)], ParseFlags(rest))
  {
  }

  /** How an option is written on the command line: `--name`, `--name=value`,
      or `--name value`. */
  datatype Spelling = Bare(name: string) | Inline(name: string, value: string) | Separate(name: string, value: string)

  /** A spelling the reader takes back as written: an option name without `=`,
      written with a separate value exactly when the option takes one that way. */
  predicate Spellable(sp: Spelling)
  {
    IsOption(sp.name) && '=' !in sp.name
    && (sp.Bare? ==> sp.name !in SeparateValueOptions)
    && (sp.Separate? ==> sp.name in SeparateValueOptions)
  }

  /** The words that write a spelling. */
  function Spell(sp: Spelling): (words: seq<string>)
  {
    match sp
    case Bare(name) => [name]
    case Inline(name, value) => [name + "=" + value]
    case Separate(name, value) => [name, value]
  }

  /** The option a spelling stands for. */
  function Meaning(sp: Spelling): (flag: Flag)
  {
    match sp
    case Bare(name) => Flag(name, None)
    case Inline(name, value) => Flag(name, Some(value))
    case Separate(name, value) => Flag(name, Some(value))
  }

  /** The words that write a list of spellings, in order. */
  function Render(ss: seq<Spelling>): (words: seq<string>)
  {
    if ss == [] then [] else Spell(ss[0]) + Render(ss[1..])
  }

  /** The options a list of spellings stands for, in order. */
  function Meanings(ss: seq<Spelling>): (fs: seq<Flag>)
    ensures |fs| == |ss|
  {
    if ss == [] then [] else [Meaning(ss[0])] + Meanings(ss[1..])
  }

  /** One spelling in front of more words reads as its option, then the
      options of those words. */
  lemma SpellParse(sp: Spelling, rest: seq<string>)
    requires Spellable(sp)
    ensures ParseFlags(Spell(sp) + rest) == Extend([Meaning(sp)], ParseFlags(rest))
  {
    match sp
    case Bare(name) => BareOption(name, rest);
    case Inline(name, value) => InlineOption(name, value, rest);
    case Separate(name, value) => SeparateOption(name, value, rest);
  }

  /** Reading back what Render wrote gives the options the spellings stand
      for, whatever follows them. */
  lemma {:induction false} RenderParse(ss: seq<Spelling>, rest: seq<string>)
    requires forall i | 0 <= i < |ss| :: Spellable(ss[i])
    ensures ParseFlags(Render(ss) + rest) == Extend(Meanings(ss), ParseFlags(rest))
    decreases |ss|
  {
    if ss == [] {
      assert Render(ss) + rest == rest;
      ExtendNothing(ParseFlags(rest));
    } else {
      var tail := Render(ss[1..]) + rest;
      assert Render(ss) + rest == Spell(ss[0]) + tail;
      SpellParse(ss[0], tail);
      RenderParse(ss[1..], rest);
      ExtendExtend([Meaning(ss[0])], Meanings(ss[1..]), ParseFlags(rest));
    }
  }

  /** Reading stops at the first word that is not an option. */
  lemma NonOptionStops(words: seq<string>)
    requires words != [] && !IsOption(words[0])
    ensures ParseFlags(words) == Some(([], words))
  {
  }

  /** `Lookup` distributes over concatenated option lists. */
  lemma {:induction false} LookupAppend(f: seq<Flag>, g: seq<Flag>, name: string)
    ensures Lookup(f + g, name) == Lookup(f, name) + Lookup(g, name)
    decreases |f|
  {
    if f == [] {
      assert f + g == g;
    } else {
      var head := if f[0].name == name then [f[0].value] else [];
      assert (f + g)[0] == f[0];
      assert (f + g)[1..] == f[1..] + g;
      calc {
        Lookup(f + g, name);
        head + Lookup(f[1..] + g, name);
        { LookupAppend(f[1..], g, name); }
        head + (Lookup(f[1..], name) + Lookup(g, name));
        (head + Lookup(f[1..], name)) + Lookup(g, name);
        Lookup(f, name) + Lookup(g, name);
      }
    }
  }

  function DigitValue(c: char): (d: nat)
    requires '0' <= c <= '9'
    ensures d < 10 && DigitChar(d) == c
  {
    (c as int - '0' as int) as nat
  }

  /** A decimal number written with digits only. */
  function ParseNat(s: string): (r: Option<nat>)
    decreases |s|
  {
    if s == [] || !('0' <= s[|s| - 1] <= '9') then None
    else if |s| == 1 then Some(DigitValue(s[0]))
    else
      match ParseNat(s[..|s| - 1])
      case None => None
      case Some(p) => Some(10 * p + DigitValue(s[|s| - 1]))
  }

  /** Reading back what `format!("{}", n)` writes gives `n`. */
  lemma {:induction false} ParseFormatNat(n: nat)
    ensures ParseNat(FormatNat(n)) == Some(n)
    decreases n
  {
    var s := FormatNat(n);
    if n >= 10 {
      var front := FormatNat(n / 10);
      assert s == front + [DigitChar(n % 10)];
      assert s[..|s| - 1] == front && s[|s| - 1] == DigitChar(n % 10);
      ParseFormatNat(n / 10);
      assert DigitValue(DigitChar(n % 10)) == n % 10;
    }
  }

  /** A Docker memory size: a decimal number, optionally followed by a unit
      `b`, `k`, `m` or `g` (bytes, KiB, MiB, GiB); the number of bytes. */
  function ByteSize(s: string): (r: Option<nat>)
  {
    if s == [] then None
    else
      var unit := s[|s| - 1];
      var scale := if unit == 'b' then 1 else if unit == 'k' then 1024
                   else if unit == 'm' then 1024 * 1024 else if unit == 'g' then 1024 * 1024 * 1024
                   else 0;
      if scale == 0 then ParseNat(s)
      else
        match ParseNat(s[..|s| - 1])
        case None => None
        case Some(n) => Some(n * scale)
  }

  /** A bind mount as Docker reads it from `SRC:DST[:MODE]`: the host path,
      the container path and the access mode, if one is given. */
  datatype Mount = Mount(host: string, target: string, mode: Option<string>)

  /** A volume specification, split at its colons as Docker splits it: the host
      path up to the first colon, the container path up to the next, and the
      mode after that. A specification without a colon names an anonymous
      volume rather than a bind mount, and one with more than three parts is
      refused. */
  function VolumeMount(spec: string): (r: Option<Mount>)
    ensures r.Some? ==> ':' !in r.value.host && ':' !in r.value.target
    ensures r.Some? && r.value.mode.None? ==> spec == r.value.host + ":" + r.value.target
    ensures r.Some? && r.value.mode.Some? ==>
              ':' !in r.value.mode.value && spec == r.value.host + ":" + r.value.target + ":" + r.value.mode.value
    ensures ':' !in spec ==> r.None?
  {
    var i := IndexOf(spec, ':');
    if i == |spec| then None
    else
      var host, rest := spec[..i], spec[i + 1..];
      assert ':' !in host by {
        forall k | 0 <= k < |host| ensures host[k] != ':' { assert host[k] == spec[k]; }
      }
      assert spec == host + ":" + rest;
      var j := IndexOf(rest, ':');
      if j == |rest| then Some(Mount(host, rest, None))
      else
        var target, mode := rest[..j], rest[j + 1..];
        assert ':' !in target by {
          forall k | 0 <= k < |target| ensures target[k] != ':' { assert target[k] == rest[k]; }
        }
        assert rest == target + ":" + mode;
        if ':' in mode then None
        else Some(Mount(host, target, Some(mode)))
  }

  /** A container path seen through a bind mount: the host path it denotes, if
      the path is the mount point or lies under it. */
  function HostPath(mount: Mount, containerPath: string): (r: Option<string>)
  {
    if containerPath == mount.target then Some(mount.host)
    else if |mount.target| < |containerPath| && containerPath[..|mount.target| + 1] == mount.target + "/" then
      Some(mount.host + containerPath[|mount.target|..])
    else None
  }

  /** An environment binding `NAME=VALUE`, split at the first `=`. */
  function EnvBinding(binding: string): (r: Option<(string, string)>)
    ensures r.Some? ==> r.value.0 + "=" + r.value.1 == binding
  {
    var k := IndexOf(binding, '=');
    if k < |binding| then
      assert binding == binding[..k] + "=" + binding[k + 1..];
      Some((binding[..k], binding[k + 1..]))
    else None
  }

  /** A binding written `name=value` reads back as that name and value when the
      name has no `=`. */
  lemma EnvBindingJoin(name: string, value: string)
    requires '=' !in name
    ensures EnvBinding(name + "=" + value) == Some((name, value))
  {
    var binding := name + "=" + value;
    IndexOfAfter(name, '=', value);
    assert binding[..|name|] == name && binding[|name| + 1..] == value;
  }

  /** A path under a mount point denotes the same relative path under the host
      side of the mount. */
  lemma HostPathUnder(mount: Mount, relative: string)
    requires relative != []
    ensures HostPath(mount, mount.target + "/" + relative) == Some(mount.host + "/" + relative)
  {
    var path := mount.target + "/" + relative;
    assert path[..|mount.target| + 1] == mount.target + "/";
    assert path != mount.target by { assert |path| > |mount.target|; }
    assert path[|mount.target|..] == "/" + relative;
    assert mount.host + ("/" + relative) == mount.host + "/" + relative;
  }

  /** `host:target` reads back as a bind mount of `host` on `target`, with no
      mode, when neither path holds a colon. */
  lemma MountJoin(host: string, target: string)
    requires ':' !in host && ':' !in target
    ensures VolumeMount(host + ":" + target) == Some(Mount(host, target, None))
  {
    var spec := host + ":" + target;
    IndexOfAfter(host, ':', target);
    assert spec[..|host|] == host && spec[|host| + 1..] == target;
    IndexOfAbsent(target, ':');
  }

  /** A host path holding one colon is cut there: `a:b:target` reads as a bind
      mount of `a` on `b`, with `target` taken for the access mode. */
  lemma ColonInHostMisread(a: string, b: string, target: string)
    requires ':' !in a && ':' !in b && ':' !in target
    ensures VolumeMount(a + ":" + b + ":" + target) == Some(Mount(a, b, Some(target)))
  {
    var spec := a + ":" + b + ":" + target;
    IndexOfAfter(a, ':', b + ":" + target);
    assert spec == a + [':'] + (b + ":" + target);
    assert spec[..|a|] == a && spec[|a| + 1..] == b + [':'] + target;
    IndexOfAfter(b, ':', target);
    var rest := b + [':'] + target;
    assert rest[..|b|] == b && rest[|b| + 1..] == target;
  }
}
