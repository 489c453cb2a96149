/** Running a command in a sandbox (tools/builtin/sandbox.go): which commands are let through, and the
    argument list that a container is started with. */
module Sandbox {
  import opened Text
  import opened Values
  import Slugs

  datatype ExecuteConfig = ExecuteConfig(
    allowedCommands: map<string, bool>, maxArgs: int, maxArgLength: int, workingDir: string, isolationMode: string,
    binary: string, image: string, runtime: string, network: string, cpus: string, memory: string, pidsLimit: int,
    readOnlyRootFS: bool, user: string, enforceNonRootUser: bool, requireRootless: bool,
    seccompProfile: string, requireSeccomp: bool, requireSignedImages: bool,
    requireImageAllowlist: bool, allowedImages: seq<string>)

  /** What the machine answers: programs on the path, files that exist, absolute paths, and the two checks
      that run other programs. */
  datatype Host = Host(
    onPath: string -> bool, exists_: string -> bool, abs: string -> Option<string>, rootless: bool, signed: bool)

  datatype Refusal =
    | EmptyCommand | UnsafeSyntax | NotAllowed | TooManyArguments | ArgumentTooLong | UnsafeArgument
    | NoProfile | NotRootless | NotSigned | UnknownMode
    | NoBinary | NoImage | ImageNotAllowed | NoUser | UnsafeProfile | UnsafeWorkingDir | NoAbsolutePath

  datatype Launch = Launch(name: string, args: seq<string>, dir: string) | Refused(why: Refusal)

  /* ---------- Images ---------- */

  /** An entry of the allowlist: a name, or the beginning of names with a star behind it. */
  predicate Matches(image: string, entry: string) {
    entry != "" &&
    if entry[|entry| - 1] == '*' then entry[..|entry| - 1] <= image else image == entry
  }

  /** What an entry means: all names that begin with what is before its star, or the one name that it is. */
  lemma {:induction false} MatchesExactly(image: string, entry: string)
    ensures !Matches(image, "")
    ensures Matches(image, entry + "*") <==> exists rest: string :: image == entry + rest
    ensures entry != "" && entry[|entry| - 1] != '*' ==> (Matches(image, entry) <==> image == entry)
  {
    var starred := entry + "*";
    assert starred[|starred| - 1] == '*' && starred[..|starred| - 1] == entry;
    if entry <= image {
      assert image == entry + image[|entry|..];
    }
  }

  method ImageAllowed(image: string, allowlist: seq<string>) returns (ok: bool)
    ensures ok <==> exists a | a in allowlist :: Matches(image, TrimSpace(a))
  {
    for i := 0 to |allowlist|
      invariant forall a | a in allowlist[..i] :: !Matches(image, TrimSpace(a))
    {
      assert allowlist[..i + 1] == allowlist[..i] + [allowlist[i]];
      var allowed := TrimSpace(allowlist[i]);
      if allowed == "" {
        continue;
      }
      if allowed[|allowed| - 1] == '*' {
        var prefix := allowed[..|allowed| - 1];
        if prefix <= image {
          return true;
        }
        continue;
      }
      if image == allowed {
        return true;
      }
    }
    assert allowlist[..|allowlist|] == allowlist;
    return false;
  }

  predicate ImageListed(cfg: ExecuteConfig, image: string) {
    cfg.requireImageAllowlist ==> exists a | a in cfg.allowedImages :: Matches(image, TrimSpace(a))
  }

  /* ---------- Options and argument lists ---------- */

  datatype Opt = Flag(name: string) | Valued(name: string, value: string)

  /** The options without a value, and those that take the next argument. */
  const FLAGS := {"--rm", "--read-only"}
  const VALUED := {"--network", "--pids-limit", "--cpus", "--memory", "--tmpfs", "--cap-drop", "--security-opt",
                   "--user", "--runtime", "-v", "-w"}

  predicate Known(o: Opt) {
    match o
    case Flag(name) => name in FLAGS
    case Valued(name, _) => name in VALUED
  }

  function Word(o: Opt): seq<string> {
    match o
    case Flag(name) => [name]
    case Valued(name, value) => [name, value]
  }

  function Words(opts: seq<Opt>): seq<string> {
    if opts == [] then [] else Words(opts[..|opts| - 1]) + Word(opts[|opts| - 1])
  }

  datatype Invocation = Invocation(options: seq<Opt>, image: string, command: seq<string>)

  predicate LooksLikeOption(arg: string) {
    arg != "" && arg[0] == '-'
  }

  /** How the container program reads the arguments of `run`: options up to the first argument that does
      not begin with a dash, which is the image; the rest is the command. */
  function Read(args: seq<string>): Option<Invocation> {
    if args == [] then None
    else if !LooksLikeOption(args[0]) then Some(Invocation([], args[0], args[1..]))
    else if args[0] in FLAGS then Prepend(Flag(args[0]), Read(args[1..]))
    else if args[0] in VALUED && |args| >= 2 then Prepend(Valued(args[0], args[1]), Read(args[2..]))
    else None
  }

  function Prepend(o: Opt, rest: Option<Invocation>): Option<Invocation> {
    match rest
    case None => None
    case Some(Invocation(options, image, command)) => Some(Invocation([o] + options, image, command))
  }

  function ReadRun(args: seq<string>): Option<Invocation> {
    if args != [] && args[0] == "run" then Read(args[1..]) else None
  }

  function PrependAll(opts: seq<Opt>, rest: Option<Invocation>): Option<Invocation> {
    match rest
    case None => None
    case Some(Invocation(options, image, command)) => Some(Invocation(opts + options, image, command))
  }

  lemma {:induction false} WordsSnoc(opts: seq<Opt>, o: Opt)
    ensures Words(opts + [o]) == Words(opts) + Word(o)
  {
    assert (opts + [o])[..|opts|] == opts;
  }

  lemma {:induction false} KnownLooksLikeOption(o: Opt)
    requires Known(o)
    ensures LooksLikeOption(o.name)
  {
  }

  /** Options are read back one by one, whatever their values look like. */
  lemma {:induction false} ReadOptions(opts: seq<Opt>, rest: seq<string>)
    requires forall o | o in opts :: Known(o)
    ensures Read(Words(opts) + rest) == PrependAll(opts, Read(rest))
    decreases |opts|
  {
    hide Known, Read, Word, PrependAll;
    if opts == [] {
      assert Words(opts) + rest == rest;
      PrependNothing(Read(rest));
    } else {
      var init, o := opts[..|opts| - 1], opts[|opts| - 1];
      assert opts == init + [o] && o in opts && forall x | x in init :: x in opts;
      WordsSnoc(init, o);
      KnownLooksLikeOption(o);
      assert Words(opts) + rest == Words(init) + (Word(o) + rest);
      ReadOptions(init, Word(o) + rest);
      ReadOne(o, rest);
      PrependInner(init, o, Read(rest));
    }
  }

  lemma {:induction false} PrependNothing(rest: Option<Invocation>)
    ensures PrependAll([], rest) == rest
  {
    if rest.Some? {
      assert [] + rest.value.options == rest.value.options;
    }
  }

  lemma {:induction false} PrependInner(init: seq<Opt>, o: Opt, rest: Option<Invocation>)
    ensures PrependAll(init, Prepend(o, rest)) == PrependAll(init + [o], rest)
  {
    if rest.Some? {
      assert init + ([o] + rest.value.options) == (init + [o]) + rest.value.options;
    }
  }

  lemma {:induction false} ReadOne(o: Opt, rest: seq<string>)
    requires Known(o)
    ensures Read(Word(o) + rest) == Prepend(o, Read(rest))
  {
    KnownLooksLikeOption(o);
    match o {
      case Flag(name) => assert ([name] + rest)[1..] == rest;
      case Valued(name, value) => assert ([name, value] + rest)[2..] == rest;
    }
  }

  lemma {:induction false} ImageNeverLooksLikeOption(args: seq<string>)
    ensures Read(args).Some? ==> !LooksLikeOption(Read(args).value.image)
    decreases |args|
  {
    if args != [] && LooksLikeOption(args[0]) {
      if args[0] in FLAGS {
        ImageNeverLooksLikeOption(args[1..]);
      } else if |args| >= 2 {
        ImageNeverLooksLikeOption(args[2..]);
      }
    }
  }

  /* ---------- The options of a configuration ---------- */

  function OrElse(s: string, fallback: string): string {
    if s == "" then fallback else s
  }

  function WithValue(name: string, value: string): seq<Opt> {
    if value == "" then [] else [Valued(name, value)]
  }

  function AbsOf(host: Host, path: string): string {
    match host.abs(path)
    case None => ""
    case Some(p) => p
  }

  function Limits(cfg: ExecuteConfig): seq<Opt> {
    [Flag("--rm"), Valued("--network", OrElse(TrimSpace(cfg.network), "none"))]
    + (if cfg.pidsLimit > 0 then [Valued("--pids-limit", Decimal(cfg.pidsLimit))] else [])
    + WithValue("--cpus", TrimSpace(cfg.cpus))
    + WithValue("--memory", TrimSpace(cfg.memory))
  }

  function Confinement(cfg: ExecuteConfig): seq<Opt> {
    (if cfg.readOnlyRootFS then [Flag("--read-only"), Valued("--tmpfs", "/tmp:rw,noexec,nosuid,size=64m")] else [])
    + [Valued("--cap-drop", "ALL"), Valued("--security-opt", "no-new-privileges")]
    + (if cfg.enforceNonRootUser then [Valued("--user", TrimSpace(cfg.user))] else [])
  }

  function Profile(cfg: ExecuteConfig, host: Host): seq<Opt> {
    var profile := TrimSpace(cfg.seccompProfile);
    if profile == "" then [] else [Valued("--security-opt", "seccomp=" + AbsOf(host, profile))]
  }

  function Runtime(cfg: ExecuteConfig, mode: string): seq<Opt> {
    if mode == "gvisor" then [Valued("--runtime", OrElse(TrimSpace(cfg.runtime), "runsc"))] else []
  }

  function Workspace(cfg: ExecuteConfig, host: Host): seq<Opt> {
    if cfg.workingDir == "" then []
    else [Valued("-v", AbsOf(host, cfg.workingDir) + ":/workspace:ro"), Valued("-w", "/workspace")]
  }

  function OptionsOf(cfg: ExecuteConfig, host: Host, mode: string): seq<Opt> {
    Limits(cfg) + Confinement(cfg) + Profile(cfg, host) + Runtime(cfg, mode) + Workspace(cfg, host)
  }

  predicate PathIsSafe(host: Host, path: string) {
    path != "" && !ContainsDots(path) && '\n' !in path && '\r' !in path && path[0] != '~' && host.exists_(path)
  }

  function BadProfile(cfg: ExecuteConfig, host: Host): Option<Refusal> {
    var profile := TrimSpace(cfg.seccompProfile);
    if profile == "" then None
    else if !PathIsSafe(host, profile) then Some(UnsafeProfile)
    else if host.abs(profile) == None then Some(NoAbsolutePath)
    else None
  }

  function BadWorkingDir(cfg: ExecuteConfig, host: Host): Option<Refusal> {
    if cfg.workingDir == "" then None
    else if !PathIsSafe(host, cfg.workingDir) then Some(UnsafeWorkingDir)
    else if host.abs(cfg.workingDir) == None then Some(NoAbsolutePath)
    else None
  }

  function RunArgs(cfg: ExecuteConfig, host: Host, mode: string, parts: seq<string>): seq<string> {
    ["run"] + Words(OptionsOf(cfg, host, mode)) + [TrimSpace(cfg.image)] + parts
  }

  /** Why no container is started, the first reason first. */
  function WhyNot(cfg: ExecuteConfig, host: Host): Option<Refusal> {
    var image := TrimSpace(cfg.image);
    if !host.onPath(OrElse(TrimSpace(cfg.binary), "docker")) then Some(NoBinary)
    else if image == "" then Some(NoImage)
    else if !ImageListed(cfg, image) then Some(ImageNotAllowed)
    else if cfg.enforceNonRootUser && TrimSpace(cfg.user) == "" then Some(NoUser)
    else if BadProfile(cfg, host).Some? then BadProfile(cfg, host)
    else BadWorkingDir(cfg, host)
  }

  lemma {:induction false} WordsConcat(a: seq<Opt>, b: seq<Opt>)
    ensures Words(a + b) == Words(a) + Words(b)
    decreases |b|
  {
    hide Word;
    if b == [] {
      assert a + b == a;
    } else {
      var n := |b| - 1;
      WordsConcat(a, b[..n]);
      WordsSnoc(a + b[..n], b[n]);
      WordsSnoc(b[..n], b[n]);
      assert b == b[..n] + [b[n]] && a + b == (a + b[..n]) + [b[n]];
    }
  }

  lemma {:induction false} WordsOne(o: Opt)
    ensures Words([]) == []
    ensures Words([o]) == Word(o)
  {
    WordsSnoc([], o);
    assert [] + [o] == [o];
  }

  lemma {:induction false} WordsMore(opts: seq<Opt>, cond: bool, o: Opt)
    ensures Words(opts + if cond then [o] else []) == Words(opts) + if cond then Word(o) else []
  {
    WordsSnoc(opts, o);
    assert opts + [] == opts;
  }

  method AddLimits(cfg: ExecuteConfig) returns (args: seq<string>)
    ensures args == ["run"] + Words(Limits(cfg))
  {
    hide Words, TrimSpace, Decimal;
    args := ["run", "--rm"];
    var network := TrimSpace(cfg.network);
    if network == "" {
      network := "none";
    }
    args := args + ["--network", network];
    ghost var opts := [Flag("--rm"), Valued("--network", network)];
    WordsOne(Flag("--rm"));
    WordsSnoc([Flag("--rm")], Valued("--network", network));
    assert opts == [Flag("--rm")] + [Valued("--network", network)];
    var pids := if cfg.pidsLimit > 0 then Decimal(cfg.pidsLimit) else "";
    WordsMore(opts, cfg.pidsLimit > 0, Valued("--pids-limit", pids));
    if cfg.pidsLimit > 0 {
      args := args + ["--pids-limit", pids];
    }
    opts := opts + if cfg.pidsLimit > 0 then [Valued("--pids-limit", pids)] else [];
    assert args == ["run"] + Words(opts);
    var cpus := TrimSpace(cfg.cpus);
    WordsMore(opts, cpus != "", Valued("--cpus", cpus));
    if cpus != "" {
      args := args + ["--cpus", cpus];
    }
    opts := opts + if cpus != "" then [Valued("--cpus", cpus)] else [];
    assert args == ["run"] + Words(opts);
    var memory := TrimSpace(cfg.memory);
    WordsMore(opts, memory != "", Valued("--memory", memory));
    if memory != "" {
      args := args + ["--memory", memory];
    }
    opts := opts + if memory != "" then [Valued("--memory", memory)] else [];
    assert args == ["run"] + Words(opts);
  }

  method AddConfinement(cfg: ExecuteConfig, start: seq<string>) returns (args: seq<string>, ok: bool)
    ensures ok <==> !(cfg.enforceNonRootUser && TrimSpace(cfg.user) == "")
    ensures ok ==> args == start + Words(Confinement(cfg))
  {
    hide Words, TrimSpace;
    args := start;
    ghost var opts := [];
    WordsOne(Flag("--read-only"));
    if cfg.readOnlyRootFS {
      args := args + ["--read-only"];
      args := args + ["--tmpfs", "/tmp:rw,noexec,nosuid,size=64m"];
      WordsSnoc([Flag("--read-only")], Valued("--tmpfs", "/tmp:rw,noexec,nosuid,size=64m"));
      opts := [Flag("--read-only")] + [Valued("--tmpfs", "/tmp:rw,noexec,nosuid,size=64m")];
    }
    assert args == start + Words(opts);
    args := args + ["--cap-drop", "ALL"];
    args := args + ["--security-opt", "no-new-privileges"];
    WordsSnoc(opts, Valued("--cap-drop", "ALL"));
    WordsSnoc(opts + [Valued("--cap-drop", "ALL")], Valued("--security-opt", "no-new-privileges"));
    opts := opts + [Valued("--cap-drop", "ALL")] + [Valued("--security-opt", "no-new-privileges")];
    assert args == start + Words(opts);
    if cfg.enforceNonRootUser {
      var user := TrimSpace(cfg.user);
      if user == "" {
        return args, false;
      }
      args := args + ["--user", user];
      WordsSnoc(opts, Valued("--user", user));
      opts := opts + [Valued("--user", user)];
    }
    assert opts == Confinement(cfg);
    ok := true;
  }

  method AddProfile(cfg: ExecuteConfig, host: Host, start: seq<string>)
    returns (args: seq<string>, why: Option<Refusal>)
    ensures why == BadProfile(cfg, host)
    ensures why == None ==> args == start + Words(Profile(cfg, host))
  {
    hide Words, TrimSpace, PathIsSafe;
    args, why := start, None;
    WordsOne(Flag("--read-only"));
    if TrimSpace(cfg.seccompProfile) != "" {
      var profile := TrimSpace(cfg.seccompProfile);
      if !PathIsSafe(host, profile) {
        return args, Some(UnsafeProfile);
      }
      var absProfile := host.abs(profile);
      if absProfile == None {
        return args, Some(NoAbsolutePath);
      }
      args := args + ["--security-opt", "seccomp=" + absProfile.value];
      WordsOne(Valued("--security-opt", "seccomp=" + absProfile.value));
    }
  }

  method AddWorkspace(cfg: ExecuteConfig, host: Host, start: seq<string>)
    returns (args: seq<string>, why: Option<Refusal>)
    ensures why == BadWorkingDir(cfg, host)
    ensures why == None ==> args == start + Words(Workspace(cfg, host))
  {
    hide Words, PathIsSafe;
    args, why := start, None;
    WordsOne(Flag("--read-only"));
    if cfg.workingDir != "" {
      if !PathIsSafe(host, cfg.workingDir) {
        return args, Some(UnsafeWorkingDir);
      }
      var absWorkDir := host.abs(cfg.workingDir);
      if absWorkDir == None {
        return args, Some(NoAbsolutePath);
      }
      args := args + ["-v", absWorkDir.value + ":/workspace:ro"];
      args := args + ["-w", "/workspace"];
      ghost var volume := Valued("-v", absWorkDir.value + ":/workspace:ro");
      WordsOne(volume);
      WordsSnoc([volume], Valued("-w", "/workspace"));
      assert Workspace(cfg, host) == [volume] + [Valued("-w", "/workspace")];
    }
  }

  method AddRuntime(cfg: ExecuteConfig, mode: string, start: seq<string>) returns (args: seq<string>)
    ensures args == start + Words(Runtime(cfg, mode))
  {
    hide Words, TrimSpace;
    args := start;
    WordsOne(Flag("--read-only"));
    if mode == "gvisor" {
      var runtime := TrimSpace(cfg.runtime);
      if runtime == "" {
        runtime := "runsc";
      }
      args := args + ["--runtime", runtime];
      WordsOne(Valued("--runtime", runtime));
    }
  }

  lemma {:induction false} WordsOfAll(cfg: ExecuteConfig, host: Host, mode: string)
    ensures ["run"] + Words(OptionsOf(cfg, host, mode)) ==
      ["run"] + Words(Limits(cfg)) + Words(Confinement(cfg)) + Words(Profile(cfg, host)) + Words(Runtime(cfg, mode))
      + Words(Workspace(cfg, host))
  {
    hide Words, Limits, Confinement, Profile, Runtime, Workspace;
    WordsConcat(Limits(cfg), Confinement(cfg));
    WordsConcat(Limits(cfg) + Confinement(cfg), Profile(cfg, host));
    WordsConcat(Limits(cfg) + Confinement(cfg) + Profile(cfg, host), Runtime(cfg, mode));
    WordsConcat(Limits(cfg) + Confinement(cfg) + Profile(cfg, host) + Runtime(cfg, mode), Workspace(cfg, host));
  }

  method BuildContainerCommand(cfg: ExecuteConfig, host: Host, mode: string, parts: seq<string>) returns (r: Launch)
    ensures r == match WhyNot(cfg, host)
                 case Some(why) => Refused(why)
                 case None => Launch(OrElse(TrimSpace(cfg.binary), "docker"), RunArgs(cfg, host, mode, parts), "")
  {
    hide Words, TrimSpace, PathIsSafe, Decimal, Matches, Limits, Confinement, Profile, Runtime, Workspace, OptionsOf,
      BadProfile, BadWorkingDir;
    var bin := TrimSpace(cfg.binary);
    if bin == "" {
      bin := "docker";
    }
    if !host.onPath(bin) {
      return Refused(NoBinary);
    }
    var image := TrimSpace(cfg.image);
    if image == "" {
      return Refused(NoImage);
    }
    if cfg.requireImageAllowlist {
      var allowed := ImageAllowed(image, cfg.allowedImages);
      if !allowed {
        return Refused(ImageNotAllowed);
      }
    }
    var args := AddLimits(cfg);
    var ok: bool;
    args, ok := AddConfinement(cfg, args);
    if !ok {
      return Refused(NoUser);
    }
    var why: Option<Refusal>;
    args, why := AddProfile(cfg, host, args);
    if why.Some? {
      return Refused(why.value);
    }
    args := AddRuntime(cfg, mode, args);
    args, why := AddWorkspace(cfg, host, args);
    if why.Some? {
      return Refused(why.value);
    }
    WordsOfAll(cfg, host, mode);
    args := args + [image];
    args := args + parts;
    r := Launch(bin, args, "");
  }

  lemma {:induction false} OptionsKnown(cfg: ExecuteConfig, host: Host, mode: string)
    ensures forall o | o in OptionsOf(cfg, host, mode) :: Known(o)
  {
    hide Limits, Confinement, Profile, Runtime, Workspace, Known;
    LimitsKnown(cfg);
    PlacesKnown(cfg, host, mode);
  }

  lemma {:induction false} LimitsKnown(cfg: ExecuteConfig)
    ensures forall o | o in Limits(cfg) + Confinement(cfg) :: Known(o)
  {
    hide TrimSpace, Decimal, OrElse;
  }

  lemma {:induction false} PlacesKnown(cfg: ExecuteConfig, host: Host, mode: string)
    ensures forall o | o in Profile(cfg, host) + Runtime(cfg, mode) + Workspace(cfg, host) :: Known(o)
  {
    hide TrimSpace, OrElse, AbsOf;
  }

  /** The container program reads from the arguments exactly the options, the image and the command that
      were meant, exactly if the image does not begin with a dash. */
  lemma {:induction false} ArgumentsReadBack(cfg: ExecuteConfig, host: Host, mode: string, parts: seq<string>)
    ensures
      var image := TrimSpace(cfg.image);
      ReadRun(RunArgs(cfg, host, mode, parts)) == Some(Invocation(OptionsOf(cfg, host, mode), image, parts))
      <==> !LooksLikeOption(image)
  {
    hide OptionsOf, Words, TrimSpace;
    var image, opts := TrimSpace(cfg.image), OptionsOf(cfg, host, mode);
    var args := RunArgs(cfg, host, mode, parts);
    assert args[1..] == Words(opts) + ([image] + parts);
    ImageNeverLooksLikeOption(args[1..]);
    if !LooksLikeOption(image) {
      OptionsKnown(cfg, host, mode);
      ReadOptions(opts, [image] + parts);
      assert ([image] + parts)[1..] == parts && opts + [] == opts;
    }
  }

  /** For instance: such an image passes every check when no allowlist is asked for, and is then taken for an
      option. */
  lemma {:induction false} DashedImageIsLaunched(cfg: ExecuteConfig, host: Host, mode: string, parts: seq<string>)
    requires cfg.image == "-it" && !cfg.requireImageAllowlist && !cfg.enforceNonRootUser
    requires TrimSpace(cfg.seccompProfile) == "" && cfg.workingDir == "" &&
      host.onPath(OrElse(TrimSpace(cfg.binary), "docker"))
    ensures WhyNot(cfg, host) == None
    ensures ReadRun(RunArgs(cfg, host, mode, parts))
            != Some(Invocation(OptionsOf(cfg, host, mode), TrimSpace(cfg.image), parts))
  {
    hide OptionsOf, Words, RunArgs, PathIsSafe;
    TrimBetween("", cfg.image, "", IsSpace);
    assert "" + cfg.image + "" == cfg.image;
    ArgumentsReadBack(cfg, host, mode, parts);
  }

  /* ---------- Commands ---------- */

  const UNSAFE := "|&;><`$\\\n\r"

  /** The length of a string in bytes of UTF-8. */
  function ByteLength(s: string): nat {
    if s == "" then 0
    else
      var c := s[|s| - 1];
      var bytes := if c < '\U{80}' then 1 else if c < '\U{800}' then 2 else if c < '\U{10000}' then 3 else 4;
      ByteLength(s[..|s| - 1]) + bytes
  }

  lemma {:induction false} ByteLengthConcat(s: string, t: string)
    ensures ByteLength(s + t) == ByteLength(s) + ByteLength(t)
    decreases |t|
  {
    if t == "" {
      assert s + t == s;
    } else {
      ByteLengthConcat(s, t[..|t| - 1]);
      assert (s + t)[..|s + t| - 1] == s + t[..|t| - 1];
    }
  }

  /** The bytes of one character: 7 bits fit into one byte, 11 into two, 16 into three. */
  lemma ByteLengthOne(c: char)
    ensures
      var n := ByteLength([c]);
      && (n == 1 <==> (c as int) < 0x80) && (n <= 2 <==> (c as int) < 0x800) && (n <= 3 <==> (c as int) < 0x10000)
      && 1 <= n <= 4
  {
    assert [c][..0] == "";
  }

  function BadArgument(cfg: ExecuteConfig, arg: string): Option<Refusal> {
    if cfg.maxArgLength > 0 && ByteLength(arg) > cfg.maxArgLength then Some(ArgumentTooLong)
    else if ContainsDots(arg) then Some(UnsafeArgument)
    else None
  }

  function BadArguments(cfg: ExecuteConfig, args: seq<string>): Option<Refusal> {
    if args == [] then None
    else if BadArgument(cfg, args[0]).Some? then BadArgument(cfg, args[0])
    else BadArguments(cfg, args[1..])
  }

  predicate CommandAllowed(cfg: ExecuteConfig, name: string) {
    name in cfg.allowedCommands && cfg.allowedCommands[name]
  }

  /** Why a command is not let through, the first reason first. */
  function BadCommand(cfg: ExecuteConfig, command: string): Option<Refusal> {
    var parts := Fields(TrimSpace(command));
    if TrimSpace(command) == "" then Some(EmptyCommand)
    else if exists c | c in TrimSpace(command) :: c in UNSAFE then Some(UnsafeSyntax)
    else if parts == [] || !CommandAllowed(cfg, parts[0]) then Some(NotAllowed)
    else if cfg.maxArgs > 0 && |parts| - 1 > cfg.maxArgs then Some(TooManyArguments)
    else BadArguments(cfg, parts[1..])
  }

  /** A command that is more than spaces has a first field. */
  lemma {:induction false} TrimmedHasFields(command: string)
    ensures TrimSpace(command) != "" <==> Fields(TrimSpace(command)) != []
  {
    var _, _ := TrimParts(command, IsSpace);
    FieldsOfText(TrimSpace(command));
    if TrimSpace(command) != "" {
      assert TrimSpace(command)[0] in TrimSpace(command);
    }
  }

  method CheckCommand(cfg: ExecuteConfig, given: string) returns (parts: seq<string>, why: Option<Refusal>)
    ensures why == BadCommand(cfg, given)
    ensures why == None ==> parts == Fields(TrimSpace(given)) && parts != []
  {
    hide TrimSpace, Fields, BadArgument;
    var command := TrimSpace(given);
    if command == "" {
      return [], Some(EmptyCommand);
    }
    if exists c | c in command :: c in UNSAFE {
      return [], Some(UnsafeSyntax);
    }
    parts := Fields(command);
    TrimmedHasFields(given);
    if !CommandAllowed(cfg, parts[0]) {
      return parts, Some(NotAllowed);
    }
    if cfg.maxArgs > 0 && |parts| - 1 > cfg.maxArgs {
      return parts, Some(TooManyArguments);
    }
    for i := 1 to |parts|
      invariant BadArguments(cfg, parts[1..]) == BadArguments(cfg, parts[i..])
    {
      assert parts[i..][1..] == parts[i + 1..];
      why := BadArgument(cfg, parts[i]);
      if why.Some? {
        return;
      }
    }
    why := None;
  }

  /* ---------- Execute ---------- */

  function ModeOf(u: Slugs.Unicode, cfg: ExecuteConfig): string {
    OrElse(Slugs.ToLower(u, TrimSpace(cfg.isolationMode)), "process")
  }

  predicate InContainer(mode: string) {
    mode == "docker" || mode == "gvisor"
  }

  /** What is asked of containers before one is started, the first reason against it first. */
  function BadPolicy(cfg: ExecuteConfig, host: Host): Option<Refusal> {
    if cfg.requireSeccomp && TrimSpace(cfg.seccompProfile) == "" then Some(NoProfile)
    else if cfg.requireRootless && !host.rootless then Some(NotRootless)
    else if cfg.requireSignedImages && !host.signed then Some(NotSigned)
    else None
  }

  function LaunchSpec(u: Slugs.Unicode, cfg: ExecuteConfig, host: Host, command: string): Launch {
    var parts, mode := Fields(TrimSpace(command)), ModeOf(u, cfg);
    if BadCommand(cfg, command).Some? then Refused(BadCommand(cfg, command).value)
    else if InContainer(mode) then
      if BadPolicy(cfg, host).Some? then Refused(BadPolicy(cfg, host).value)
      else
        match WhyNot(cfg, host)
        case Some(why) => Refused(why)
        case None => Launch(OrElse(TrimSpace(cfg.binary), "docker"), RunArgs(cfg, host, mode, parts), "")
    else if mode != "process" then Refused(UnknownMode)
    else if cfg.workingDir != "" && !PathIsSafe(host, cfg.workingDir) then Refused(UnsafeWorkingDir)
    else if parts == [] then Refused(EmptyCommand)
    else Launch(parts[0], parts[1..], cfg.workingDir)
  }

  /** Execute, up to the start of the program. */
  method Prepare(u: Slugs.Unicode, cfg: ExecuteConfig, host: Host, command: string) returns (r: Launch)
    ensures r == LaunchSpec(u, cfg, host, command)
  {
    hide TrimSpace, Fields, BadCommand, WhyNot, RunArgs, PathIsSafe;
    var parts, why := CheckCommand(cfg, command);
    if why.Some? {
      return Refused(why.value);
    }
    var mode := Slugs.ToLower(u, TrimSpace(cfg.isolationMode));
    if mode == "" {
      mode := "process";
    }
    if mode == "docker" || mode == "gvisor" {
      if cfg.requireSeccomp && TrimSpace(cfg.seccompProfile) == "" {
        return Refused(NoProfile);
      }
      if cfg.requireRootless && !host.rootless {
        return Refused(NotRootless);
      }
      if cfg.requireSignedImages && !host.signed {
        return Refused(NotSigned);
      }
    }
    if mode == "process" {
      if cfg.workingDir != "" && !PathIsSafe(host, cfg.workingDir) {
        return Refused(UnsafeWorkingDir);
      }
      return Launch(parts[0], parts[1..], cfg.workingDir);
    } else if mode == "docker" || mode == "gvisor" {
      r := BuildContainerCommand(cfg, host, mode, parts);
    } else {
      r := Refused(UnknownMode);
    }
  }

  /** The words of a command that was let through: an allowed program, arguments that are not too many, not
      too long and without "..", no unsafe character anywhere, and together the command without its spaces. */
  ghost predicate Harmless(cfg: ExecuteConfig, command: string, parts: seq<string>) {
    && parts != [] && parts[0] in cfg.allowedCommands && cfg.allowedCommands[parts[0]]
    && (cfg.maxArgs > 0 ==> |parts| - 1 <= cfg.maxArgs)
    && (forall i | 0 < i < |parts| ::
          && (cfg.maxArgLength > 0 ==> ByteLength(parts[i]) <= cfg.maxArgLength)
          && forall k | 0 <= k < |parts[i]| - 1 :: parts[i][k] == '.' ==> parts[i][k + 1] != '.')
    && (forall c | c in TrimSpace(command) :: c !in "|&;><`$\\\n\r")
    && (forall p | p in parts :: p != "" && forall c | c in p :: !IsSpace(c))
    && Flatten(parts) == WithoutSpaces(TrimSpace(command))
  }

  lemma {:induction false} GoodArgument(cfg: ExecuteConfig, arg: string)
    ensures BadArgument(cfg, arg) == None <==>
      && (cfg.maxArgLength > 0 ==> ByteLength(arg) <= cfg.maxArgLength)
      && forall k | 0 <= k < |arg| - 1 :: arg[k] == '.' ==> arg[k + 1] != '.'
  {
    hide ByteLength;
  }

  lemma {:induction false} GoodArguments(cfg: ExecuteConfig, args: seq<string>)
    ensures BadArguments(cfg, args) == None <==> forall i | 0 <= i < |args| :: BadArgument(cfg, args[i]) == None
    decreases |args|
  {
    if args != [] && BadArgument(cfg, args[0]) == None {
      GoodArguments(cfg, args[1..]);
      assert forall i | 0 < i < |args| :: args[i] == args[1..][i - 1];
    }
  }

  /** A command is let through exactly if it is harmless. */
  lemma {:induction false} LetThroughIsHarmless(cfg: ExecuteConfig, command: string)
    ensures BadCommand(cfg, command) == None <==> Harmless(cfg, command, Fields(TrimSpace(command)))
  {
    hide TrimSpace, Fields, ByteLength, Flatten, WithoutSpaces, IsSpace, BadArguments, BadArgument;
    var t := TrimSpace(command);
    var parts := Fields(t);
    FieldsOfText(t);
    TrimmedHasFields(command);
    if parts != [] {
      GoodArguments(cfg, parts[1..]);
      assert forall i | 0 <= i < |parts| - 1 :: parts[1..][i] == parts[i + 1];
      forall i | 0 < i < |parts| ensures BadArgument(cfg, parts[i]) == None <==>
        && (cfg.maxArgLength > 0 ==> ByteLength(parts[i]) <= cfg.maxArgLength)
        && forall k | 0 <= k < |parts[i]| - 1 :: parts[i][k] == '.' ==> parts[i][k + 1] != '.'
      {
        GoodArgument(cfg, parts[i]);
        assert parts[1..][i - 1] == parts[i];
      }
      assert (forall i | 0 <= i < |parts[1..]| :: BadArgument(cfg, parts[1..][i]) == None) <==>
        forall i | 0 < i < |parts| :: BadArgument(cfg, parts[i]) == None;
    }
  }

  /** The values that an option is given, in order. */
  function ValuesOf(options: seq<Opt>, name: string): seq<string> {
    if options == [] then []
    else
      var o := options[|options| - 1];
      ValuesOf(options[..|options| - 1], name) + if o.Valued? && o.name == name then [o.value] else []
  }

  lemma {:induction false} ValuesConcat(a: seq<Opt>, b: seq<Opt>, name: string)
    ensures ValuesOf(a + b, name) == ValuesOf(a, name) + ValuesOf(b, name)
    decreases |b|
  {
    if b == [] {
      assert a + b == a;
    } else {
      var n := |b| - 1;
      ValuesConcat(a, b[..n], name);
      assert (a + b)[..|a + b| - 1] == a + b[..n];
    }
  }

  function When<T>(cond: bool, values: seq<T>): seq<T> {
    if cond then values else []
  }

  /** What a container runs with: all options and all their values. No capabilities; no new privileges and
      the seccomp profile; one network, which was chosen; limits, user, runtime and read-only root as
      configured; at most one mount, which is read-only. */
  predicate Confined(cfg: ExecuteConfig, host: Host, mode: string, options: seq<Opt>) {
    var profile := TrimSpace(cfg.seccompProfile);
    && ValuesOf(options, "--cap-drop") == ["ALL"]
    && ValuesOf(options, "--security-opt") ==
      ["no-new-privileges"] + When(profile != "", ["seccomp=" + AbsOf(host, profile)])
    && ValuesOf(options, "--network") == [OrElse(TrimSpace(cfg.network), "none")]
    && ValuesOf(options, "--pids-limit") == (if cfg.pidsLimit > 0 then [Decimal(cfg.pidsLimit)] else [])
    && ValuesOf(options, "--cpus") == When(TrimSpace(cfg.cpus) != "", [TrimSpace(cfg.cpus)])
    && ValuesOf(options, "--memory") == When(TrimSpace(cfg.memory) != "", [TrimSpace(cfg.memory)])
    && ValuesOf(options, "--user") == When(cfg.enforceNonRootUser, [TrimSpace(cfg.user)])
    && ValuesOf(options, "--runtime") == When(mode == "gvisor", [OrElse(TrimSpace(cfg.runtime), "runsc")])
    && ValuesOf(options, "-v") == When(cfg.workingDir != "", [AbsOf(host, cfg.workingDir) + ":/workspace:ro"])
    && ValuesOf(options, "-w") == When(cfg.workingDir != "", ["/workspace"])
    && ValuesOf(options, "--tmpfs") == When(cfg.readOnlyRootFS, ["/tmp:rw,noexec,nosuid,size=64m"])
    && (Flag("--read-only") in options <==> cfg.readOnlyRootFS) && Flag("--rm") in options
    && (cfg.enforceNonRootUser ==> TrimSpace(cfg.user) != "")
    && (cfg.requireSeccomp ==> profile != "")
  }

  lemma {:induction false} ValuesOne(o: Opt, name: string)
    ensures ValuesOf([], name) == []
    ensures ValuesOf([o], name) == if o.Valued? && o.name == name then [o.value] else []
  {
    assert [o][..0] == [];
    assert ValuesOf([o][..0], name) == [];
  }

  lemma {:induction false} ValuesTwo(o: Opt, p: Opt, name: string)
    ensures ValuesOf([o, p], name) ==
      (if o.Valued? && o.name == name then [o.value] else []) + if p.Valued? && p.name == name then [p.value] else []
  {
    ValuesOne(o, name);
    ValuesOne(p, name);
    ValuesConcat([o], [p], name);
    assert [o, p] == [o] + [p];
  }

  lemma {:induction false} LimitsValues(cfg: ExecuteConfig, name: string)
    ensures ValuesOf(Limits(cfg), name) ==
      if name == "--network" then [OrElse(TrimSpace(cfg.network), "none")]
      else if name == "--pids-limit" then (if cfg.pidsLimit > 0 then [Decimal(cfg.pidsLimit)] else [])
      else if name == "--cpus" then When(TrimSpace(cfg.cpus) != "", [TrimSpace(cfg.cpus)])
      else if name == "--memory" then When(TrimSpace(cfg.memory) != "", [TrimSpace(cfg.memory)])
      else []
  {
    hide TrimSpace, Decimal, ValuesOf, OrElse;
    var network := Valued("--network", OrElse(TrimSpace(cfg.network), "none"));
    var pids := if cfg.pidsLimit > 0 then [Valued("--pids-limit", Decimal(cfg.pidsLimit))] else [];
    var cpus, memory := WithValue("--cpus", TrimSpace(cfg.cpus)), WithValue("--memory", TrimSpace(cfg.memory));
    ValuesTwo(Flag("--rm"), network, name);
    ValuesOne(Valued("--pids-limit", if cfg.pidsLimit > 0 then Decimal(cfg.pidsLimit) else ""), name);
    ValuesOne(Valued("--cpus", TrimSpace(cfg.cpus)), name);
    ValuesOne(Valued("--memory", TrimSpace(cfg.memory)), name);
    ValuesConcat([Flag("--rm"), network], pids, name);
    ValuesConcat([Flag("--rm"), network] + pids, cpus, name);
    ValuesConcat([Flag("--rm"), network] + pids + cpus, memory, name);
  }

  lemma {:induction false} ConfinementValues(cfg: ExecuteConfig, name: string)
    ensures ValuesOf(Confinement(cfg), name) ==
      if name == "--tmpfs" then When(cfg.readOnlyRootFS, ["/tmp:rw,noexec,nosuid,size=64m"])
      else if name == "--cap-drop" then ["ALL"]
      else if name == "--security-opt" then ["no-new-privileges"]
      else if name == "--user" then When(cfg.enforceNonRootUser, [TrimSpace(cfg.user)])
      else []
  {
    hide TrimSpace, ValuesOf;
    var root := if cfg.readOnlyRootFS
      then [Flag("--read-only"), Valued("--tmpfs", "/tmp:rw,noexec,nosuid,size=64m")] else [];
    var fixed := [Valued("--cap-drop", "ALL"), Valued("--security-opt", "no-new-privileges")];
    var user := if cfg.enforceNonRootUser then [Valued("--user", TrimSpace(cfg.user))] else [];
    ValuesTwo(Flag("--read-only"), Valued("--tmpfs", "/tmp:rw,noexec,nosuid,size=64m"), name);
    ValuesTwo(fixed[0], fixed[1], name);
    ValuesOne(Valued("--user", TrimSpace(cfg.user)), name);
    ValuesConcat(root, fixed, name);
    ValuesConcat(root + fixed, user, name);
  }

  lemma {:induction false} PlacesValues(cfg: ExecuteConfig, host: Host, mode: string, name: string)
    ensures
      var profile := TrimSpace(cfg.seccompProfile);
      ValuesOf(Profile(cfg, host), name) ==
        When(name == "--security-opt" && profile != "", ["seccomp=" + AbsOf(host, profile)])
    ensures ValuesOf(Runtime(cfg, mode), name) ==
      When(name == "--runtime" && mode == "gvisor", [OrElse(TrimSpace(cfg.runtime), "runsc")])
    ensures ValuesOf(Workspace(cfg, host), name) ==
      if name == "-v" then When(cfg.workingDir != "", [AbsOf(host, cfg.workingDir) + ":/workspace:ro"])
      else When(name == "-w" && cfg.workingDir != "", ["/workspace"])
  {
    hide TrimSpace, ValuesOf, AbsOf, OrElse;
    ValuesOne(Valued("--security-opt", "seccomp=" + AbsOf(host, TrimSpace(cfg.seccompProfile))), name);
    ValuesOne(Valued("--runtime", OrElse(TrimSpace(cfg.runtime), "runsc")), name);
    ValuesTwo(Valued("-v", AbsOf(host, cfg.workingDir) + ":/workspace:ro"), Valued("-w", "/workspace"), name);
  }

  lemma {:induction false} ValuesOfAll(cfg: ExecuteConfig, host: Host, mode: string, name: string)
    ensures ValuesOf(OptionsOf(cfg, host, mode), name) ==
      ValuesOf(Limits(cfg), name) + ValuesOf(Confinement(cfg), name) + ValuesOf(Profile(cfg, host), name)
      + ValuesOf(Runtime(cfg, mode), name) + ValuesOf(Workspace(cfg, host), name)
  {
    hide ValuesOf, Limits, Confinement, Profile, Runtime, Workspace;
    ValuesConcat(Limits(cfg), Confinement(cfg), name);
    ValuesConcat(Limits(cfg) + Confinement(cfg), Profile(cfg, host), name);
    ValuesConcat(Limits(cfg) + Confinement(cfg) + Profile(cfg, host), Runtime(cfg, mode), name);
    ValuesConcat(Limits(cfg) + Confinement(cfg) + Profile(cfg, host) + Runtime(cfg, mode), Workspace(cfg, host), name);
  }

  /** The values of an option in the whole list. */
  lemma {:induction false} OptionValues(cfg: ExecuteConfig, host: Host, mode: string, name: string)
    ensures
      var profile, values := TrimSpace(cfg.seccompProfile), ValuesOf(OptionsOf(cfg, host, mode), name);
      && (name == "--cap-drop" ==> values == ["ALL"])
      && (name == "--security-opt" ==>
            values == ["no-new-privileges"] + When(profile != "", ["seccomp=" + AbsOf(host, profile)]))
      && (name == "--network" ==> values == [OrElse(TrimSpace(cfg.network), "none")])
      && (name == "--pids-limit" ==> values == if cfg.pidsLimit > 0 then [Decimal(cfg.pidsLimit)] else [])
      && (name == "--cpus" ==> values == When(TrimSpace(cfg.cpus) != "", [TrimSpace(cfg.cpus)]))
      && (name == "--memory" ==> values == When(TrimSpace(cfg.memory) != "", [TrimSpace(cfg.memory)]))
      && (name == "--user" ==> values == When(cfg.enforceNonRootUser, [TrimSpace(cfg.user)]))
      && (name == "--runtime" ==> values == When(mode == "gvisor", [OrElse(TrimSpace(cfg.runtime), "runsc")]))
      && (name == "-v" ==> values == When(cfg.workingDir != "", [AbsOf(host, cfg.workingDir) + ":/workspace:ro"]))
      && (name == "-w" ==> values == When(cfg.workingDir != "", ["/workspace"]))
      && (name == "--tmpfs" ==> values == When(cfg.readOnlyRootFS, ["/tmp:rw,noexec,nosuid,size=64m"]))
  {
    hide ValuesOf, Limits, Confinement, Profile, Runtime, Workspace, OptionsOf, TrimSpace, AbsOf, OrElse, Decimal;
    ValuesOfAll(cfg, host, mode, name);
    LimitsValues(cfg, name);
    ConfinementValues(cfg, name);
    PlacesValues(cfg, host, mode, name);
  }

  lemma {:induction false} ReadOnlyRoot(cfg: ExecuteConfig, host: Host, mode: string)
    ensures Flag("--read-only") in OptionsOf(cfg, host, mode) <==> cfg.readOnlyRootFS
    ensures Flag("--rm") in OptionsOf(cfg, host, mode)
  {
    hide TrimSpace, Decimal, AbsOf, OrElse;
    var f := Flag("--read-only");
    assert Limits(cfg)[0] == Flag("--rm");
    assert f !in Limits(cfg) && f !in Profile(cfg, host) && f !in Runtime(cfg, mode) && f !in Workspace(cfg, host);
    if cfg.readOnlyRootFS {
      assert Confinement(cfg)[0] == f;
    } else {
      assert f !in Confinement(cfg);
    }
    hide Limits, Confinement, Profile, Runtime, Workspace;
  }

  lemma {:induction false} OptionsConfine(cfg: ExecuteConfig, host: Host, mode: string)
    requires WhyNot(cfg, host) == None && BadPolicy(cfg, host) == None
    ensures Confined(cfg, host, mode, OptionsOf(cfg, host, mode))
  {
    hide ValuesOf, OptionsOf, TrimSpace, AbsOf, OrElse, Decimal, When, BadProfile, BadWorkingDir, ImageListed;
    OptionValues(cfg, host, mode, "--cap-drop");
    OptionValues(cfg, host, mode, "--security-opt");
    OptionValues(cfg, host, mode, "--network");
    OptionValues(cfg, host, mode, "--pids-limit");
    OptionValues(cfg, host, mode, "--cpus");
    OptionValues(cfg, host, mode, "--memory");
    OptionValues(cfg, host, mode, "--user");
    OptionValues(cfg, host, mode, "--runtime");
    OptionValues(cfg, host, mode, "-v");
    OptionValues(cfg, host, mode, "-w");
    OptionValues(cfg, host, mode, "--tmpfs");
    ReadOnlyRoot(cfg, host, mode);
  }

  /* ---------- What is launched, and what is not ---------- */

  /** Everything that can be said against a launch, in the order in which it is said. */
  type Objections = seq<(bool, Refusal)>

  function First(objections: Objections): Option<Refusal> {
    if objections == [] then None
    else if objections[0].0 then Some(objections[0].1)
    else First(objections[1..])
  }

  function ArgumentObjections(cfg: ExecuteConfig, args: seq<string>): Objections {
    if args == [] then []
    else
      [(cfg.maxArgLength > 0 && ByteLength(args[0]) > cfg.maxArgLength, ArgumentTooLong),
       ((exists k | 0 <= k < |args[0]| - 1 :: args[0][k] == '.' && args[0][k + 1] == '.'), UnsafeArgument)]
      + ArgumentObjections(cfg, args[1..])
  }

  function CommandObjections(cfg: ExecuteConfig, command: string): Objections {
    var text, parts := TrimSpace(command), Fields(TrimSpace(command));
    [(text == "", EmptyCommand), ((exists c | c in text :: c in "|&;><`$\\\n\r"), UnsafeSyntax),
     (parts == [] || parts[0] !in cfg.allowedCommands || !cfg.allowedCommands[parts[0]], NotAllowed),
     (cfg.maxArgs > 0 && |parts| - 1 > cfg.maxArgs, TooManyArguments)]
    + ArgumentObjections(cfg, if parts == [] then [] else parts[1..])
  }

  predicate Unusable(host: Host, path: string) {
    path != "" &&
      (ContainsDots(path) || '\n' in path || '\r' in path || path[0] == '~' || !host.exists_(path))
  }

  /** Against running any container. */
  function PolicyObjections(cfg: ExecuteConfig, host: Host): Objections {
    var program := TrimSpace(cfg.binary);
    [(cfg.requireSeccomp && TrimSpace(cfg.seccompProfile) == "", NoProfile),
     (cfg.requireRootless && !host.rootless, NotRootless), (cfg.requireSignedImages && !host.signed, NotSigned),
     (!host.onPath(if program == "" then "docker" else program), NoBinary)]
  }

  function ImageObjections(cfg: ExecuteConfig): Objections {
    var image := TrimSpace(cfg.image);
    [(image == "", NoImage),
     (cfg.requireImageAllowlist && !(exists a | a in cfg.allowedImages :: Matches(image, TrimSpace(a))),
      ImageNotAllowed),
     (cfg.enforceNonRootUser && TrimSpace(cfg.user) == "", NoUser)]
  }

  function PathObjections(cfg: ExecuteConfig, host: Host): Objections {
    var profile := TrimSpace(cfg.seccompProfile);
    [(Unusable(host, profile), UnsafeProfile), (profile != "" && host.abs(profile) == None, NoAbsolutePath),
     (Unusable(host, cfg.workingDir), UnsafeWorkingDir),
     (cfg.workingDir != "" && host.abs(cfg.workingDir) == None, NoAbsolutePath)]
  }

  function ModeObjections(u: Slugs.Unicode, cfg: ExecuteConfig, host: Host): Objections {
    var mode := Slugs.ToLower(u, TrimSpace(cfg.isolationMode));
    if mode == "" || mode == "process" then [(Unusable(host, cfg.workingDir), UnsafeWorkingDir)]
    else if mode == "docker" || mode == "gvisor"
      then PolicyObjections(cfg, host) + ImageObjections(cfg) + PathObjections(cfg, host)
    else [(true, UnknownMode)]
  }

  lemma {:induction false} FirstConcat(a: Objections, b: Objections)
    ensures First(a + b) == if First(a).Some? then First(a) else First(b)
  {
    if a == [] {
      assert a + b == b;
    } else {
      FirstConcat(a[1..], b);
      assert (a + b)[1..] == a[1..] + b;
    }
  }

  lemma {:induction false} FirstThree(a: (bool, Refusal), b: (bool, Refusal), c: (bool, Refusal))
    ensures First([c]) == if c.0 then Some(c.1) else None
    ensures First([b, c]) == if b.0 then Some(b.1) else First([c])
    ensures First([a, b, c]) == if a.0 then Some(a.1) else First([b, c])
  {
    assert [a, b, c][1..] == [b, c] && [b, c][1..] == [c] && [c][1..] == [];
  }

  lemma {:induction false} FirstFour(a: (bool, Refusal), b: (bool, Refusal), c: (bool, Refusal), d: (bool, Refusal))
    ensures First([a, b, c, d]) ==
      if a.0 then Some(a.1) else if b.0 then Some(b.1) else if c.0 then Some(c.1) else if d.0 then Some(d.1) else None
  {
    FirstThree(b, c, d);
    assert [a, b, c, d][1..] == [b, c, d];
  }

  lemma {:induction false} FirstBadArgument(cfg: ExecuteConfig, args: seq<string>)
    ensures First(ArgumentObjections(cfg, args)) == BadArguments(cfg, args)
  {
    hide ByteLength, First, ContainsDots;
    if args == [] {
      FirstOfNone();
    } else {
      var long := (cfg.maxArgLength > 0 && ByteLength(args[0]) > cfg.maxArgLength, ArgumentTooLong);
      var dots := ((exists k | 0 <= k < |args[0]| - 1 :: args[0][k] == '.' && args[0][k + 1] == '.'), UnsafeArgument);
      assert dots.0 <==> ContainsDots(args[0]) by {
        DotsSpelled(args[0]);
      }
      FirstThree(long, long, dots);
      FirstConcat([long, dots], ArgumentObjections(cfg, args[1..]));
      FirstBadArgument(cfg, args[1..]);
    }
  }

  lemma FirstOfNone()
    ensures First([]) == None
  {
  }

  lemma DotsSpelled(s: string)
    ensures ContainsDots(s) <==> exists k | 0 <= k < |s| - 1 :: s[k] == '.' && s[k + 1] == '.'
  {
  }

  lemma {:induction false} FirstAgainstCommand(cfg: ExecuteConfig, command: string)
    ensures First(CommandObjections(cfg, command)) == BadCommand(cfg, command)
  {
    hide First, TrimSpace, Fields, BadArguments, ArgumentObjections;
    var text, parts := TrimSpace(command), Fields(TrimSpace(command));
    var args := if parts == [] then [] else parts[1..];
    var a, b := (text == "", EmptyCommand), ((exists c | c in text :: c in "|&;><`$\\\n\r"), UnsafeSyntax);
    var c := (parts == [] || parts[0] !in cfg.allowedCommands || !cfg.allowedCommands[parts[0]], NotAllowed);
    var d := (cfg.maxArgs > 0 && |parts| - 1 > cfg.maxArgs, TooManyArguments);
    FirstFour(a, b, c, d);
    FirstConcat([a, b, c, d], ArgumentObjections(cfg, args));
    FirstBadArgument(cfg, args);
  }

  lemma {:induction false} FirstAgainstPolicy(cfg: ExecuteConfig, host: Host)
    ensures First(PolicyObjections(cfg, host)) ==
      if BadPolicy(cfg, host).Some? then BadPolicy(cfg, host)
      else if !host.onPath(OrElse(TrimSpace(cfg.binary), "docker")) then Some(NoBinary) else None
  {
    hide First, TrimSpace;
    var o := PolicyObjections(cfg, host);
    FirstFour(o[0], o[1], o[2], o[3]);
  }

  lemma {:induction false} FirstAgainstImage(cfg: ExecuteConfig)
    ensures
      var image := TrimSpace(cfg.image);
      First(ImageObjections(cfg)) ==
        if image == "" then Some(NoImage)
        else if !ImageListed(cfg, image) then Some(ImageNotAllowed)
        else if cfg.enforceNonRootUser && TrimSpace(cfg.user) == "" then Some(NoUser) else None
  {
    hide First, TrimSpace, Matches;
    var o := ImageObjections(cfg);
    FirstThree(o[0], o[1], o[2]);
  }

  lemma {:induction false} FirstAgainstPaths(cfg: ExecuteConfig, host: Host)
    ensures First(PathObjections(cfg, host)) ==
      if BadProfile(cfg, host).Some? then BadProfile(cfg, host) else BadWorkingDir(cfg, host)
  {
    hide First, TrimSpace, ContainsDots;
    var o := PathObjections(cfg, host);
    FirstFour(o[0], o[1], o[2], o[3]);
  }

  lemma {:induction false} FirstAgainstContainer(cfg: ExecuteConfig, host: Host)
    ensures First(PolicyObjections(cfg, host) + ImageObjections(cfg) + PathObjections(cfg, host)) ==
      if BadPolicy(cfg, host).Some? then BadPolicy(cfg, host) else WhyNot(cfg, host)
  {
    hide First, TrimSpace, PolicyObjections, ImageObjections, PathObjections, BadPolicy, BadProfile, BadWorkingDir,
      ImageListed;
    FirstAgainstPolicy(cfg, host);
    FirstAgainstImage(cfg);
    FirstAgainstPaths(cfg, host);
    FirstConcat(PolicyObjections(cfg, host), ImageObjections(cfg));
    FirstConcat(PolicyObjections(cfg, host) + ImageObjections(cfg), PathObjections(cfg, host));
  }

  /** A command is launched exactly if nothing can be said against it; otherwise the first objection is given. */
  lemma {:induction false} RefusedForFirstObjection(u: Slugs.Unicode, cfg: ExecuteConfig, host: Host, command: string)
    ensures
      match First(CommandObjections(cfg, command) + ModeObjections(u, cfg, host))
      case Some(why) => LaunchSpec(u, cfg, host, command) == Refused(why)
      case None => LaunchSpec(u, cfg, host, command).Launch?
  {
    hide First, TrimSpace, Fields, BadPolicy, WhyNot, BadCommand, CommandObjections, PolicyObjections, ImageObjections,
      PathObjections, Slugs.ToLower, RunArgs, ContainsDots;
    FirstConcat(CommandObjections(cfg, command), ModeObjections(u, cfg, host));
    FirstAgainstCommand(cfg, command);
    FirstAgainstContainer(cfg, host);
    var place, mode := (Unusable(host, cfg.workingDir), UnsafeWorkingDir), (true, UnknownMode);
    FirstThree(place, place, place);
    FirstThree(mode, mode, mode);
    LetThroughIsHarmless(cfg, command);
  }

  /** Without a container, what is launched is the command, word for word, in the working directory. */
  lemma {:induction false} ProcessIsCommand(u: Slugs.Unicode, cfg: ExecuteConfig, host: Host, command: string)
    requires LaunchSpec(u, cfg, host, command).Launch?
    requires Slugs.ToLower(u, TrimSpace(cfg.isolationMode)) in {"", "process"}
    ensures
      var launch := LaunchSpec(u, cfg, host, command);
      var words := [launch.name] + launch.args;
      words == Fields(TrimSpace(command)) && Harmless(cfg, command, words) && launch.dir == cfg.workingDir
  {
    hide TrimSpace, Fields, BadCommand, Harmless, Slugs.ToLower;
    LetThroughIsHarmless(cfg, command);
  }

  /** Whatever is launched in a container: the command is harmless, the image is listed if it has to be, and
      if it does not begin with a dash, the container program reads from the arguments a confining set of
      options, that image, and that command, word for word. */
  lemma {:induction false} ContainersAreConfined(u: Slugs.Unicode, cfg: ExecuteConfig, host: Host, command: string)
    requires InContainer(ModeOf(u, cfg)) && LaunchSpec(u, cfg, host, command).Launch?
    ensures
      var launch, parts, image := LaunchSpec(u, cfg, host, command), Fields(TrimSpace(command)), TrimSpace(cfg.image);
      && Harmless(cfg, command, parts) && image != "" && ImageListed(cfg, image)
      && launch.name == (if TrimSpace(cfg.binary) == "" then "docker" else TrimSpace(cfg.binary)) && launch.dir == ""
      && (!LooksLikeOption(image) ==>
            && ReadRun(launch.args).Some?
            && Confined(cfg, host, ModeOf(u, cfg), ReadRun(launch.args).value.options)
            && ReadRun(launch.args).value.image == image
            && ReadRun(launch.args).value.command == parts)
  {
    hide Harmless, Confined, OptionsOf, RunArgs, TrimSpace, Fields, BadCommand;
    LetThroughIsHarmless(cfg, command);
    OptionsConfine(cfg, host, ModeOf(u, cfg));
    ArgumentsReadBack(cfg, host, ModeOf(u, cfg), Fields(TrimSpace(command)));
  }
}
