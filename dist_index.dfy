/** dist/index.js: the bundled entry point. It carries its own copies of the
    helpers (a getPlatform that rejects unknown hosts, a getInput that treats
    an empty input as missing, a multi-line input reader, a setEnv that trims
    and skips blank values, a run that drops every token that is not a
    non-empty string) and a builder with a config path, a publish switch and
    a script run before the build, which writes GH_TOKEN and no signing
    variables. Its package-manager table is the one of src/builder.ts. */
module DistIndex {
  import opened Runtime
  import opened Types
  import Ascii
  import Utils
  import SrcBuilder

  /** getPlatform: the three supported hosts; null for any other. */
  function GetPlatform(host: string): (r: Option<Platform>)
    ensures r == Some(Mac) <==> host == "darwin"
    ensures r == Some(Linux) <==> host == "linux"
    ensures r == Some(Windows) <==> host == "win32"
    ensures r.None? <==> host !in {"darwin", "linux", "win32"}
  {
    match host
    case "darwin" => Some(Mac)
    case "linux" => Some(Linux)
    case "win32" => Some(Windows)
    case _ => None
  }

  /** Where both versions of getPlatform name a platform they agree; the
      hosts this one rejects are the ones src/utils.ts treats as linux. */
  lemma GetPlatformRefinesUtils(host: string)
    ensures GetPlatform(host).Some? ==> GetPlatform(host).value == Utils.GetPlatform(host)
    ensures GetPlatform(host).None? ==> Utils.GetPlatform(host) == Linux
  {
  }

  /** isValidString: a string with at least one character. It accepts
      exactly the values that run's filter in src/utils.ts keeps. */
  function IsValidString(v: Option<string>): (b: bool)
    ensures b <==> Utils.Tokens([v]) != []
  {
    Utils.TokensSingle(v);
    v.Some? && |v.value| > 0
  }

  /** getInput: INPUT_<NAME>, or undefined when it is unset or empty. */
  function GetInput(env: map<string, string>, name: string): (r: Option<string>)
    ensures var key := "INPUT_" + Ascii.Upper(name);
      && (r.Some? <==> key in env && env[key] != "")
      && (r.Some? ==> r.value == env[key])
  {
    var input := Get(env, Utils.InputKey(name));
    if IsValidString(input) then input else None
  }

  /** The bundled getInput differs from the one in src/utils.ts only on an
      empty value, which it reports as missing. */
  lemma GetInputHidesEmpty(env: map<string, string>, name: string)
    ensures GetInput(env, name)
      == if Utils.GetInput(env, name) == Some("") then None else Utils.GetInput(env, name)
  {
  }

  /** The non-blank pieces of a multi-line input, each trimmed, in order. */
  function CleanLines(pieces: seq<string>): (r: seq<string>)
    ensures |r| <= |pieces|
  {
    if pieces == [] then []
    else
      var last := Ascii.Trim(pieces[|pieces| - 1]);
      CleanLines(pieces[..|pieces| - 1]) + (if IsValidString(Some(last)) then [last] else [])
  }

  /** What getInputMultiLine returns: the lines of the input, trimmed, with
      blank lines dropped; nothing when the input is missing or empty. */
  function Lines(env: map<string, string>, name: string): seq<string>
  {
    match GetInput(env, name)
    case None => []
    case Some(input) => CleanLines(Ascii.Split(input, '\n'))
  }

  /** getInputMultiLine. */
  method GetInputMultiLine(env: map<string, string>, name: string) returns (lines: seq<string>)
    ensures lines == Lines(env, name)
  {
    lines := [];
    var input := GetInput(env, name);
    if input.Some? {
      lines := CleanPieces(Ascii.Split(input.value, '\n'));
    }
  }

  /** The loop of getInputMultiLine over the pieces of the input: each is
      trimmed and kept unless it is then empty. */
  method CleanPieces(pieces: seq<string>) returns (lines: seq<string>)
    ensures lines == CleanLines(pieces)
  {
    lines := [];
    var i := 0;
    while i < |pieces|
      invariant 0 <= i <= |pieces|
      invariant lines == CleanLines(pieces[..i])
    {
      var cleanStr := Ascii.Trim(pieces[i]);
      CleanLinesStep(pieces, i);
      if IsValidString(Some(cleanStr)) {
        lines := lines + [cleanStr];
      }
      i := i + 1;
    }
    assert pieces[..i] == pieces;
  }

  /** Cleaning one more piece appends its trimmed text, unless that is
      empty. */
  lemma CleanLinesStep(pieces: seq<string>, i: nat)
    requires i < |pieces|
    ensures var line := Ascii.Trim(pieces[i]);
      CleanLines(pieces[..i + 1]) == CleanLines(pieces[..i]) + (if IsValidString(Some(line)) then [line] else [])
  {
    assert pieces[..i + 1][..i] == pieces[..i];
  }

  /** A clean line: non-empty, without leading or trailing whitespace, and
      without a line break. */
  predicate IsCleanLine(line: string)
  {
    line != [] && Ascii.Trim(line) == line && '\n' !in line
  }

  /** Every line CleanLines keeps is clean, when the pieces hold no line
      break. */
  lemma {:induction false} CleanLinesAreClean(pieces: seq<string>)
    requires forall k | 0 <= k < |pieces| :: '\n' !in pieces[k]
    ensures forall k | 0 <= k < |CleanLines(pieces)| :: IsCleanLine(CleanLines(pieces)[k])
  {
    if pieces != [] {
      var init := pieces[..|pieces| - 1];
      var piece := pieces[|pieces| - 1];
      CleanLinesAreClean(init);
      var last := Ascii.Trim(piece);
      Ascii.TrimIdempotent(piece);
      assert '\n' !in last by {
        var i := Ascii.LeadingSpaces(piece);
        assert last == piece[i..i + |last|];
      }
    }
  }

  /** Every line getInputMultiLine returns is clean. */
  lemma LinesAreClean(env: map<string, string>, name: string)
    ensures forall k | 0 <= k < |Lines(env, name)| :: IsCleanLine(Lines(env, name)[k])
  {
    if GetInput(env, name).Some? {
      Ascii.SplitPieces(GetInput(env, name).value, '\n');
      CleanLinesAreClean(Ascii.Split(GetInput(env, name).value, '\n'));
    }
  }

  lemma {:induction false} CleanLinesAppend(a: seq<string>, b: seq<string>)
    ensures CleanLines(a + b) == CleanLines(a) + CleanLines(b)
    decreases |b|
  {
    if b == [] {
      assert a + b == a;
    } else {
      var init := b[..|b| - 1];
      assert (a + b)[..|a + b| - 1] == a + init;
      assert (a + b)[|a + b| - 1] == b[|b| - 1];
      CleanLinesAppend(a, init);
    }
  }

  /** Clean lines come back unchanged. */
  lemma {:induction false} CleanLinesKeepsClean(lines: seq<string>)
    requires forall k | 0 <= k < |lines| :: IsCleanLine(lines[k])
    ensures CleanLines(lines) == lines
  {
    if lines != [] {
      var init := lines[..|lines| - 1];
      var last := lines[|lines| - 1];
      assert IsCleanLine(last);
      CleanLinesKeepsClean(init);
      InitLast(lines);
    }
  }

  /** Two texts joined by a line break read as the lines of the first, then
      the lines of the second. */
  lemma LinesOfConcat(a: string, b: string)
    ensures CleanLines(Ascii.Split(a + "\n" + b, '\n'))
      == CleanLines(Ascii.Split(a, '\n')) + CleanLines(Ascii.Split(b, '\n'))
  {
    Ascii.SplitConcat(a, '\n', b);
    CleanLinesAppend(Ascii.Split(a, '\n'), Ascii.Split(b, '\n'));
  }

  /** Clean lines written one per line are read back as they were. */
  lemma LinesRoundTrip(lines: seq<string>)
    requires forall k | 0 <= k < |lines| :: IsCleanLine(lines[k])
    ensures CleanLines(Ascii.Split(Ascii.Join(lines, "\n"), '\n')) == lines
  {
    if lines == [] {
      assert Ascii.Split("", '\n') == [""];
      assert Ascii.Trim("") == "";
    } else {
      Ascii.SplitJoin(lines, '\n');
      CleanLinesKeepsClean(lines);
    }
  }

  /** The effects of setEnv(name, value): the value is trimmed, and a
      missing or blank value writes nothing. */
  function SetEnvEffects(name: string, value: Option<string>): (r: seq<Effect>)
    ensures AllWrite(r)
    ensures |r| <= 1
  {
    var cleanValue := if value.Some? then Some(Ascii.Trim(value.value)) else None;
    if !IsValidString(cleanValue) then [] else [Write(Ascii.Upper(name), cleanValue.value)]
  }

  /** The environment after setEnv: the upper-cased variable holds the
      trimmed value, unless the value is missing or only whitespace, in which
      case nothing changes; every other variable keeps its value. */
  lemma SetEnvResult(env: map<string, string>, name: string, value: Option<string>)
    ensures var e := Replay(env, SetEnvEffects(name, value));
      forall n :: Get(e, n) ==
        if n == Ascii.Upper(name) && value.Some? && Ascii.Trim(value.value) != ""
        then Some(Ascii.Trim(value.value))
        else Get(env, n)
  {
    assert Replay(env, SetEnvEffects(name, value))
      == if value.Some? && Ascii.Trim(value.value) != "" then env[Ascii.Upper(name) := Ascii.Trim(value.value)] else env;
  }

  /** setEnv. */
  method SetEnv(p: Process, name: string, value: Option<string>)
    modifies p
    ensures p.env == Replay(old(p.env), SetEnvEffects(name, value))
    ensures p.trace == old(p.trace) + SetEnvEffects(name, value)
  {
    var cleanValue := if value.Some? then Some(Ascii.Trim(value.value)) else None;
    if !IsValidString(cleanValue) {
      return;
    }
    p.Assign(Ascii.Upper(name), cleanValue.value);
  }

  /** run: unlike src/utils.ts, any token that is not a non-empty string,
      null and undefined included, is dropped. */
  method Run(p: Process, command: Utils.Command, cwd: string)
    modifies p
    ensures p.env == old(p.env)
    ensures p.trace == old(p.trace) + [Exec(Utils.CommandString(command), cwd)]
  {
    var commandStr := match command
      case Argv(tokens) => Ascii.Join(Utils.Tokens(tokens), " ")
      case Line(text) => text;
    p.Shell(commandStr, cwd);
  }

  /** The parameters of the bundled builder. Each platform entry holds only
      its architecture list. */
  datatype IndexParams = IndexParams(
    args: Option<string>,
    configPath: Option<string>,
    githubToken: string,
    linuxArch: Option<seq<string>>,
    macArch: Option<seq<string>>,
    packageManager: Option<string>,
    packageRoot: Option<string>,
    platform: Platform,
    publish: Option<bool>,
    scriptBeforeBuild: Option<string>,
    windowsArch: Option<seq<string>>)
  {
    function Manager(): string { packageManager.GetOr("NPM") }
    function Root(): string { packageRoot.GetOr(".") }
    function Args(): string { args.GetOr("") }
    function Publishing(): bool { publish.GetOr(false) }
  }

  /** The architectures of the platform being built. */
  function Archs(q: IndexParams): (r: seq<string>)
    ensures q.platform == Linux ==> r == q.linuxArch.GetOr([])
    ensures q.platform == Mac ==> r == q.macArch.GetOr([])
    ensures q.platform == Windows ==> r == q.windowsArch.GetOr([])
  {
    match q.platform
    case Linux => q.linuxArch.GetOr([])
    case Mac => q.macArch.GetOr([])
    case Windows => q.windowsArch.GetOr([])
  }

  /** `--publish ${publish ? "always" : "never"}`. */
  function PublishFlag(publishing: bool): (r: string)
    ensures r == if publishing then "--publish always" else "--publish never"
  {
    "--publish " + (if publishing then "always" else "never")
  }

  /** `--config ${configPath}`, or undefined without a config path. */
  function ConfigFlag(configPath: Option<string>): (r: Option<string>)
    ensures configPath.None? ==> r.None?
    ensures configPath.Some? ==> r == Some("--config " + configPath.value)
  {
    if configPath.None? then None else Some("--config " + configPath.value)
  }

  /** The publish flag, the config flag and the extra arguments. */
  function Tail(q: IndexParams): seq<Option<string>>
  {
    [Some(PublishFlag(q.Publishing())), ConfigFlag(q.configPath), Some(q.Args())]
  }

  /** What the bundled builder does, as data. */
  function Plan(q: IndexParams, manifestDirs: set<string>): (r: Outcome)
    ensures r.error.Some? ==> r.effects == []
    ensures r.error.Some? ==> r.error == Some(UnsupportedManager(q.Manager())) || r.error == Some(ManifestNotFound)
  {
    match SrcBuilder.Lookup(q.Manager())
    case None => Outcome([], Some(UnsupportedManager(q.Manager())))
    case Some(commands) =>
      if q.Root() !in manifestDirs then Outcome([], Some(ManifestNotFound))
      else Outcome(
        SrcBuilder.ScriptEffects(commands, q.scriptBeforeBuild, q.Root())
          + SetEnvEffects("GH_TOKEN", Some(q.githubToken))
          + SrcBuilder.FanOut(SrcBuilder.Head(commands, q.platform), Archs(q), Tail(q), q.Root()),
        None)
  }

  /** The effects of a build that throws nothing. */
  lemma SuccessfulPlan(q: IndexParams, manifestDirs: set<string>)
    requires Plan(q, manifestDirs).error.None?
    ensures SrcBuilder.Lookup(q.Manager()).Some? && q.Root() in manifestDirs
    ensures var c := SrcBuilder.Lookup(q.Manager()).value;
      Plan(q, manifestDirs).effects
        == SrcBuilder.ScriptEffects(c, q.scriptBeforeBuild, q.Root())
           + SetEnvEffects("GH_TOKEN", Some(q.githubToken))
           + SrcBuilder.FanOut(SrcBuilder.Head(c, q.platform), Archs(q), Tail(q), q.Root())
  {
  }

  /** The checks come first and a rejected build has no effect. */
  lemma RejectsBeforeAnyEffect(q: IndexParams, manifestDirs: set<string>)
    ensures var o := Plan(q, manifestDirs);
      && (o.error.Some? <==> SrcBuilder.Lookup(q.Manager()).None? || q.Root() !in manifestDirs)
      && (o.error.Some? ==> o.effects == [])
      && (SrcBuilder.Lookup(q.Manager()).None? ==> o.error == Some(UnsupportedManager(q.Manager())))
      && (SrcBuilder.Lookup(q.Manager()).Some? && q.Root() !in manifestDirs ==> o.error == Some(ManifestNotFound))
  {
  }

  /** The tokens of one electron-builder run: the packager prefix,
      'electron-builder', the platform flag, `--<arch>` when building one
      architecture, "--publish always" or "--publish never", then
      "--config <path>" when a config path is given, then the extra
      arguments unless they are empty. */
  lemma PackagingTokens(commands: PackageManagerCommands, q: IndexParams, arch: Option<string>)
    requires commands.electronBuilder != ""
    ensures Utils.Tokens(SrcBuilder.PackagingArgv(SrcBuilder.Head(commands, q.platform), arch, Tail(q)))
      == [commands.electronBuilder, "electron-builder", PlatformFlag(q.platform)]
         + (if arch.Some? then ["--" + arch.value] else [])
         + [PublishFlag(q.Publishing())]
         + (if q.configPath.Some? then [ConfigFlag(q.configPath).value] else [])
         + (if q.Args() == "" then [] else [q.Args()])
  {
    var h := [commands.electronBuilder, "electron-builder", PlatformFlag(q.platform)];
    var c := if q.configPath.Some? then [ConfigFlag(q.configPath).value] else [];
    var r := if q.Args() == "" then [] else [q.Args()];
    SrcBuilder.HeadTokens(commands, q.platform);
    TailTokens(q);
    SrcBuilder.PackagingTokensFrom(SrcBuilder.Head(commands, q.platform), arch, Tail(q), h, [PublishFlag(q.Publishing())] + c + r);
  }

  lemma TailTokens(q: IndexParams)
    ensures Utils.Tokens(Tail(q))
      == [PublishFlag(q.Publishing())]
         + (if q.configPath.Some? then [ConfigFlag(q.configPath).value] else [])
         + (if q.Args() == "" then [] else [q.Args()])
  {
    var tail := Tail(q);
    assert tail == [tail[0]] + [tail[1]] + [tail[2]];
    Utils.TokensAppend([tail[0]] + [tail[1]], [tail[2]]);
    Utils.TokensAppend([tail[0]], [tail[1]]);
    Utils.TokensSingle(tail[0]);
    Utils.TokensSingle(tail[1]);
    Utils.TokensSingle(tail[2]);
  }

  /** The environment after a successful build: GH_TOKEN holds the trimmed
      token unless the token is blank; no other variable changes, so no
      signing certificate is ever exported. */
  lemma EnvironmentAfterBuild(q: IndexParams, manifestDirs: set<string>, env: map<string, string>)
    requires Plan(q, manifestDirs).error.None?
    ensures var e := Replay(env, Plan(q, manifestDirs).effects);
      forall name :: Get(e, name) ==
        if name == "GH_TOKEN" && Ascii.Trim(q.githubToken) != "" then Some(Ascii.Trim(q.githubToken))
        else Get(env, name)
  {
    var c := SrcBuilder.Lookup(q.Manager()).value;
    var script := SrcBuilder.ScriptEffects(c, q.scriptBeforeBuild, q.Root());
    var gh := SetEnvEffects("GH_TOKEN", Some(q.githubToken));
    var runs := SrcBuilder.FanOut(SrcBuilder.Head(c, q.platform), Archs(q), Tail(q), q.Root());
    SuccessfulPlan(q, manifestDirs);
    CommandsAroundWrites(env, script, gh, runs);
    SrcBuilder.VariableNamesUpperCase();
    SetEnvResult(env, "GH_TOKEN", Some(q.githubToken));
  }

  /** The commands of a successful build: the script before the build, if
      given, then one electron-builder run per architecture of the platform
      being built, or exactly one when there is none. */
  lemma CommandSequence(q: IndexParams, manifestDirs: set<string>)
    requires Plan(q, manifestDirs).error.None?
    ensures var cmds := Commands(Plan(q, manifestDirs).effects);
      var c := SrcBuilder.Lookup(q.Manager()).value;
      var s := if q.scriptBeforeBuild.Some? then 1 else 0;
      var archs := Archs(q);
      && |cmds| == s + (if |archs| == 0 then 1 else |archs|)
      && (q.scriptBeforeBuild.Some? ==>
            var name := q.scriptBeforeBuild.value;
            cmds[0] == Exec(if name == "" then c.script else c.script + " " + name, q.Root()))
      && (forall i | 0 <= i < |archs| :: cmds[s + i] == Exec(PackagingLine(c, q, Some(archs[i])), q.Root()))
      && (|archs| == 0 ==> cmds[s] == Exec(PackagingLine(c, q, None), q.Root()))
  {
    PlanCommands(q, manifestDirs);
    var c := SrcBuilder.Lookup(q.Manager()).value;
    var script := SrcBuilder.ScriptEffects(c, q.scriptBeforeBuild, q.Root());
    var runs := SrcBuilder.FanOut(SrcBuilder.Head(c, q.platform), Archs(q), Tail(q), q.Root());
    FanOutLines(c, q);
    if q.scriptBeforeBuild.Some? {
      SrcBuilder.ScriptLine(c, q.scriptBeforeBuild.value);
    }
    var cmds := Commands(Plan(q, manifestDirs).effects);
    LayoutCount(q, cmds, script, runs);
    LayoutScript(c, q, cmds, script, runs);
    LayoutRuns(c, q, cmds, script, runs);
    LayoutSingleRun(c, q, cmds, script, runs);
  }

  /** How many commands there are: the script run, if any, and the
      electron-builder runs. */
  lemma LayoutCount(q: IndexParams, cmds: seq<Effect>, script: seq<Effect>, runs: seq<Effect>)
    requires cmds == script + runs
    requires |script| == if q.scriptBeforeBuild.Some? then 1 else 0
    requires |runs| == if |Archs(q)| == 0 then 1 else |Archs(q)|
    ensures |cmds| == (if q.scriptBeforeBuild.Some? then 1 else 0) + (if |Archs(q)| == 0 then 1 else |Archs(q)|)
  {
  }

  /** The script run, if any, comes first. */
  lemma LayoutScript(c: PackageManagerCommands, q: IndexParams, cmds: seq<Effect>, script: seq<Effect>, runs: seq<Effect>)
    requires cmds == script + runs
    requires q.scriptBeforeBuild.Some? ==>
      var name := q.scriptBeforeBuild.value;
      |script| == 1 && script[0] == Exec(if name == "" then c.script else c.script + " " + name, q.Root())
    ensures q.scriptBeforeBuild.Some? ==>
      var name := q.scriptBeforeBuild.value;
      cmds[0] == Exec(if name == "" then c.script else c.script + " " + name, q.Root())
  {
  }

  /** The electron-builder runs follow the script run, one per architecture
      in order. */
  lemma LayoutRuns(c: PackageManagerCommands, q: IndexParams, cmds: seq<Effect>, script: seq<Effect>, runs: seq<Effect>)
    requires cmds == script + runs
    requires |script| == if q.scriptBeforeBuild.Some? then 1 else 0
    requires runs == SrcBuilder.FanOut(SrcBuilder.Head(c, q.platform), Archs(q), Tail(q), q.Root())
    ensures var s := if q.scriptBeforeBuild.Some? then 1 else 0;
      forall i | 0 <= i < |Archs(q)| :: cmds[s + i] == Exec(PackagingLine(c, q, Some(Archs(q)[i])), q.Root())
  {
    var s := if q.scriptBeforeBuild.Some? then 1 else 0;
    forall i | 0 <= i < |Archs(q)|
      ensures cmds[s + i] == Exec(PackagingLine(c, q, Some(Archs(q)[i])), q.Root())
    {
      LayoutRunAt(c, q, cmds, script, runs, i);
    }
  }

  /** The run for one architecture, after the script run. */
  lemma LayoutRunAt(c: PackageManagerCommands, q: IndexParams, cmds: seq<Effect>, script: seq<Effect>, runs: seq<Effect>, i: int)
    requires cmds == script + runs
    requires |script| == if q.scriptBeforeBuild.Some? then 1 else 0
    requires runs == SrcBuilder.FanOut(SrcBuilder.Head(c, q.platform), Archs(q), Tail(q), q.Root())
    requires 0 <= i < |Archs(q)|
    ensures cmds[(if q.scriptBeforeBuild.Some? then 1 else 0) + i] == Exec(PackagingLine(c, q, Some(Archs(q)[i])), q.Root())
  {
    RunAt(c, q, runs, i);
    RunAfter(cmds, script, runs, if q.scriptBeforeBuild.Some? then 1 else 0, i, runs[i]);
  }

  /** The run for one architecture is its electron-builder line. */
  lemma RunAt(c: PackageManagerCommands, q: IndexParams, runs: seq<Effect>, i: int)
    requires runs == SrcBuilder.FanOut(SrcBuilder.Head(c, q.platform), Archs(q), Tail(q), q.Root())
    requires 0 <= i < |Archs(q)|
    ensures |runs| == |Archs(q)| && runs[i] == Exec(PackagingLine(c, q, Some(Archs(q)[i])), q.Root())
  {
  }

  /** Without architectures, the single electron-builder run follows the
      script run. */
  lemma LayoutSingleRun(c: PackageManagerCommands, q: IndexParams, cmds: seq<Effect>, script: seq<Effect>, runs: seq<Effect>)
    requires cmds == script + runs
    requires |script| == if q.scriptBeforeBuild.Some? then 1 else 0
    requires runs == SrcBuilder.FanOut(SrcBuilder.Head(c, q.platform), Archs(q), Tail(q), q.Root())
    ensures var s := if q.scriptBeforeBuild.Some? then 1 else 0;
      |Archs(q)| == 0 ==> cmds[s] == Exec(PackagingLine(c, q, None), q.Root())
  {
    if |Archs(q)| == 0 {
      RunAfter(cmds, script, runs, if q.scriptBeforeBuild.Some? then 1 else 0, 0, Exec(PackagingLine(c, q, None), q.Root()));
    }
  }

  /** The commands of a successful build are the script run and the
      electron-builder runs. */
  lemma PlanCommands(q: IndexParams, manifestDirs: set<string>)
    requires Plan(q, manifestDirs).error.None?
    ensures SrcBuilder.Lookup(q.Manager()).Some?
    ensures var c := SrcBuilder.Lookup(q.Manager()).value;
      Commands(Plan(q, manifestDirs).effects)
        == SrcBuilder.ScriptEffects(c, q.scriptBeforeBuild, q.Root())
           + SrcBuilder.FanOut(SrcBuilder.Head(c, q.platform), Archs(q), Tail(q), q.Root())
  {
    var c := SrcBuilder.Lookup(q.Manager()).value;
    SuccessfulPlan(q, manifestDirs);
    CommandsAroundWrites(map[], SrcBuilder.ScriptEffects(c, q.scriptBeforeBuild, q.Root()),
      SetEnvEffects("GH_TOKEN", Some(q.githubToken)),
      SrcBuilder.FanOut(SrcBuilder.Head(c, q.platform), Archs(q), Tail(q), q.Root()));
  }

  /** The runs of FanOut, one command line each. */
  lemma FanOutLines(c: PackageManagerCommands, q: IndexParams)
    ensures var runs := SrcBuilder.FanOut(SrcBuilder.Head(c, q.platform), Archs(q), Tail(q), q.Root());
      && |runs| == (if |Archs(q)| == 0 then 1 else |Archs(q)|)
      && (forall i | 0 <= i < |Archs(q)| :: runs[i] == Exec(PackagingLine(c, q, Some(Archs(q)[i])), q.Root()))
      && (|Archs(q)| == 0 ==> runs[0] == Exec(PackagingLine(c, q, None), q.Root()))
  {
  }

  /** PNPM (in any case) on a mac host, with no architectures, no build
      script, no config path, no extra arguments and no publish: exactly one
      command, "pnpm electron-builder --mac --publish never", in
      packageRoot. */
  lemma PnpmOnMac(q: IndexParams, manifestDirs: set<string>)
    requires Ascii.Upper(q.Manager()) == "PNPM" && q.Root() in manifestDirs
    requires q.platform == Mac && Archs(q) == [] && q.scriptBeforeBuild.None?
    requires q.configPath.None? && q.Args() == "" && !q.Publishing()
    ensures Commands(Plan(q, manifestDirs).effects)
      == [Exec(Ascii.Join(["pnpm", "electron-builder", "--mac", "--publish never"], " "), q.Root())]
  {
    var c := PackageManagerCommands("pnpm", "pnpm run");
    assert SrcBuilder.Lookup(q.Manager()) == Some(c);
    PlanSucceeds(q, manifestDirs);
    CommandSequence(q, manifestDirs);
    PnpmMacTokens(q);
  }

  /** Plan succeeds once the package manager is known and package.json is
      found. */
  lemma PlanSucceeds(q: IndexParams, manifestDirs: set<string>)
    requires SrcBuilder.Lookup(q.Manager()).Some? && q.Root() in manifestDirs
    ensures Plan(q, manifestDirs).error.None?
  {
  }

  /** The tokens of the PNPM mac command line in that case. */
  lemma PnpmMacTokens(q: IndexParams)
    requires q.platform == Mac && q.configPath.None? && q.Args() == "" && !q.Publishing()
    ensures var c := PackageManagerCommands("pnpm", "pnpm run");
      PackagingLine(c, q, None) == Ascii.Join(["pnpm", "electron-builder", "--mac", "--publish never"], " ")
  {
    var c := PackageManagerCommands("pnpm", "pnpm run");
    var argv := SrcBuilder.PackagingArgv(SrcBuilder.Head(c, q.platform), None, Tail(q));
    assert Utils.Tokens(argv) == ["pnpm", "electron-builder", "--mac", "--publish never"] by {
      PackagingTokens(c, q, None);
      SrcBuilder.MacFlag();
    }
  }

  /** The command line of one electron-builder run. */
  function PackagingLine(commands: PackageManagerCommands, q: IndexParams, arch: Option<string>): string
  {
    Utils.CommandString(Utils.Argv(SrcBuilder.PackagingArgv(SrcBuilder.Head(commands, q.platform), arch, Tail(q))))
  }

  /** The `archs.forEach(...)` loop: one electron-builder run per
      architecture, in order. */
  method RunEachArch(p: Process, head: seq<Option<string>>, archs: seq<string>, tail: seq<Option<string>>, root: string)
    requires |archs| > 0
    modifies p
    ensures p.env == old(p.env)
    ensures p.trace == old(p.trace) + SrcBuilder.FanOut(head, archs, tail, root)
  {
    ghost var runs := SrcBuilder.FanOut(head, archs, tail, root);
    var i := 0;
    while i < |archs|
      invariant 0 <= i <= |archs|
      invariant p.env == old(p.env)
      invariant p.trace == old(p.trace) + runs[..i]
    {
      Run(p, Utils.Argv(SrcBuilder.PackagingArgv(head, Some(archs[i]), tail)), root);
      assert runs[..i + 1] == runs[..i] + [runs[i]];
      i := i + 1;
    }
    assert runs[..i] == runs;
  }

  /** The three `if (platform === ... && ....arch !== undefined)` checks. */
  method CollectArchs(q: IndexParams) returns (archs: seq<string>)
    ensures archs == Archs(q)
  {
    archs := [];
    if q.platform == Linux && q.linuxArch.Some? {
      archs := archs + q.linuxArch.value;
    }
    if q.platform == Mac && q.macArch.Some? {
      archs := archs + q.macArch.value;
    }
    if q.platform == Windows && q.windowsArch.Some? {
      archs := archs + q.windowsArch.value;
    }
  }

  /** builder of dist/index.js. */
  method Builder(p: Process, q: IndexParams) returns (error: Option<BuildError>)
    modifies p
    ensures error == Plan(q, p.manifestDirs).error
    ensures p.trace == old(p.trace) + Plan(q, p.manifestDirs).effects
    ensures p.env == Replay(old(p.env), Plan(q, p.manifestDirs).effects)
  {
    var args := q.args.GetOr("");
    var packageManager := q.packageManager.GetOr("NPM");
    var packageRoot := q.packageRoot.GetOr(".");
    var publish := q.publish.GetOr(false);

    var commands := SrcBuilder.Lookup(packageManager);
    if commands.None? {
      return Some(UnsupportedManager(packageManager));
    }
    if !p.HasManifest(packageRoot) {
      return Some(ManifestNotFound);
    }
    if q.scriptBeforeBuild.Some? {
      Run(p, Utils.Argv([Some(commands.value.script), q.scriptBeforeBuild]), packageRoot);
    }
    ghost var afterScript := p.trace;
    ghost var envAfterScript := p.env;
    var archs := CollectArchs(q);
    SetEnv(p, "GH_TOKEN", Some(q.githubToken));
    ghost var afterWrites := p.trace;
    ghost var envAfterWrites := p.env;

    var configFlag := if q.configPath.None? then None else Some("--config " + q.configPath.value);
    assert configFlag == ConfigFlag(q.configPath);
    var platformFlag := PlatformFlag(q.platform);
    var publishFlag := "--publish " + (if publish then "always" else "never");
    assert publishFlag == PublishFlag(publish);
    var head := [Some(commands.value.electronBuilder), Some("electron-builder"), Some(platformFlag)];
    var tail := [Some(publishFlag), configFlag, Some(args)];
    if |archs| > 0 {
      RunEachArch(p, head, archs, tail, packageRoot);
    } else {
      Run(p, Utils.Argv(SrcBuilder.PackagingArgv(head, None, tail)), packageRoot);
    }
    BuilderPlan(q, p.manifestDirs, commands.value, old(p.env), old(p.trace), afterScript, envAfterScript,
      afterWrites, envAfterWrites, p.env, p.trace);
    return None;
  }

  /** The steps of builder add up to Plan. */
  lemma BuilderPlan(q: IndexParams, manifestDirs: set<string>, commands: PackageManagerCommands,
                    env0: map<string, string>, trace0: seq<Effect>, afterScript: seq<Effect>,
                    envAfterScript: map<string, string>, afterWrites: seq<Effect>,
                    envAfterWrites: map<string, string>, env: map<string, string>, trace: seq<Effect>)
    requires SrcBuilder.Lookup(q.Manager()) == Some(commands) && q.Root() in manifestDirs
    requires afterScript == trace0 + SrcBuilder.ScriptEffects(commands, q.scriptBeforeBuild, q.Root())
    requires envAfterScript == env0
    requires afterWrites == afterScript + SetEnvEffects("GH_TOKEN", Some(q.githubToken))
    requires envAfterWrites == Replay(envAfterScript, SetEnvEffects("GH_TOKEN", Some(q.githubToken)))
    requires env == envAfterWrites
    requires trace == afterWrites + SrcBuilder.FanOut(SrcBuilder.Head(commands, q.platform), Archs(q), Tail(q), q.Root())
    ensures Plan(q, manifestDirs).error.None?
    ensures trace == trace0 + Plan(q, manifestDirs).effects
    ensures env == Replay(env0, Plan(q, manifestDirs).effects)
  {
    var script := SrcBuilder.ScriptEffects(commands, q.scriptBeforeBuild, q.Root());
    var gh := SetEnvEffects("GH_TOKEN", Some(q.githubToken));
    var runs := SrcBuilder.FanOut(SrcBuilder.Head(commands, q.platform), Archs(q), Tail(q), q.Root());
    assert Plan(q, manifestDirs) == Outcome(script + gh + runs, None);
    Regroup3(trace0, script, gh, runs);
    CommandsAroundWrites(env0, script, gh, runs);
  }

  /** What main does, as data: the token check, then the host check, then
      builder with the inputs. */
  function EntryPlan(env: map<string, string>, host: string, manifestDirs: set<string>): (r: Outcome)
    ensures r.error == Some(TokenNotFound) <==> GetInput(env, "github_token").None?
    ensures r.error == Some(UnsupportedPlatform(host))
      <==> GetInput(env, "github_token").Some? && GetPlatform(host).None?
    ensures r.error == Some(TokenNotFound) || r.error == Some(UnsupportedPlatform(host)) ==> r.effects == []
  {
    match GetInput(env, "github_token")
    case None => Outcome([], Some(TokenNotFound))
    case Some(token) =>
      match GetPlatform(host)
      case None => Outcome([], Some(UnsupportedPlatform(host)))
      case Some(platform) => Plan(InputParams(env, token, platform), manifestDirs)
  }

  /** The builder parameters main reads from the inputs. */
  function InputParams(env: map<string, string>, token: string, platform: Platform): IndexParams
  {
    IndexParams(
      args := GetInput(env, "args"),
      configPath := GetInput(env, "config_path"),
      githubToken := token,
      linuxArch := Some(Lines(env, "linux_arch")),
      macArch := Some(Lines(env, "mac_arch")),
      packageManager := GetInput(env, "package_manager"),
      packageRoot := GetInput(env, "package_root"),
      platform := platform,
      publish := Some(GetInput(env, "publish") == Some("true")),
      scriptBeforeBuild := GetInput(env, "script_before_build"),
      windowsArch := Some(Lines(env, "windows_arch")))
  }

  /** main's checks: a missing or empty token input is reported first, then
      an unsupported host; both before any effect. Publishing happens exactly
      when the publish input is "true". */
  lemma EntryChecks(env: map<string, string>, host: string, manifestDirs: set<string>)
    ensures var o := EntryPlan(env, host, manifestDirs);
      && (GetInput(env, "github_token").None? ==> o == Outcome([], Some(TokenNotFound)))
      && (GetInput(env, "github_token").Some? && GetPlatform(host).None? ==>
            o == Outcome([], Some(UnsupportedPlatform(host))))
    ensures forall token, platform ::
      InputParams(env, token, platform).Publishing() <==> GetInput(env, "publish") == Some("true")
  {
  }

  /** main of dist/index.js. */
  method Entry(p: Process) returns (error: Option<BuildError>)
    modifies p
    ensures error == EntryPlan(old(p.env), p.platform, p.manifestDirs).error
    ensures p.trace == old(p.trace) + EntryPlan(old(p.env), p.platform, p.manifestDirs).effects
    ensures p.env == Replay(old(p.env), EntryPlan(old(p.env), p.platform, p.manifestDirs).effects)
  {
    var githubToken := GetInput(p.env, "github_token");
    if githubToken.None? {
      return Some(TokenNotFound);
    }
    var platform := GetPlatform(p.platform);
    if platform.None? {
      return Some(UnsupportedPlatform(p.platform));
    }
    var linuxArch := GetInputMultiLine(p.env, "linux_arch");
    var macArch := GetInputMultiLine(p.env, "mac_arch");
    var windowsArch := GetInputMultiLine(p.env, "windows_arch");
    var q := IndexParams(
      args := GetInput(p.env, "args"),
      configPath := GetInput(p.env, "config_path"),
      githubToken := githubToken.value,
      linuxArch := Some(linuxArch),
      macArch := Some(macArch),
      packageManager := GetInput(p.env, "package_manager"),
      packageRoot := GetInput(p.env, "package_root"),
      platform := platform.value,
      publish := Some(GetInput(p.env, "publish") == Some("true")),
      scriptBeforeBuild := GetInput(p.env, "script_before_build"),
      windowsArch := Some(windowsArch));
    assert q == InputParams(old(p.env), githubToken.value, platform.value);
    error := Builder(p, q);
  }
}
