/** src/builder.ts: the package-manager command table and `builder`, which
    checks the request, runs the optional build script, writes the signing
    variables and GH_TOKEN into the environment, and runs electron-builder
    once per architecture of the platform being built, or once when there
    is none. The shared shape of the electron-builder runs (PackagingArgv,
    FanOut) is defined here and reused by the other variants. */
module SrcBuilder {
  import opened Runtime
  import opened Types
  import Ascii
  import Utils

  /** packageManagerCommands. */
  const Table: map<string, PackageManagerCommands> := map[
    "NPM" := PackageManagerCommands("npx --no-install", "npm run"),
    "PNPM" := PackageManagerCommands("pnpm", "pnpm run"),
    "YARN" := PackageManagerCommands("yarn", "yarn run")]

  /** packageManagerCommands[packageManager.toUpperCase()]. */
  function Lookup(name: string): (r: Option<PackageManagerCommands>)
    ensures r.Some? <==> Ascii.Upper(name) in {"NPM", "PNPM", "YARN"}
    ensures r.Some? ==> r.value == Table[Ascii.Upper(name)]
  {
    var key := Ascii.Upper(name);
    if key in Table then Some(Table[key]) else None
  }

  /** The lookup ignores case: a name and its upper-case form find the same
      entry. */
  lemma LookupIgnoresCase(name: string)
    ensures Lookup(name) == Lookup(Ascii.Upper(name))
  {
    Ascii.UpperIdempotent(name);
  }

  /** Upper-casing the name before the lookup also keeps it away from the
      names the table inherits from Object.prototype: each of those has a
      lower-case letter in its second or third place. */
  lemma UpperNeverInherited(name: string)
    ensures Ascii.Upper(name) !in InheritedKeys
  {
    InheritedKeysHaveLower();
  }

  lemma InheritedKeysHaveLower()
    ensures forall k | k in InheritedKeys :: |k| > 2 && (Ascii.IsLower(k[1]) || Ascii.IsLower(k[2]))
  {
    assert Ascii.IsLower("constructor"[1]);
    assert Ascii.IsLower("hasOwnProperty"[1]);
    assert Ascii.IsLower("isPrototypeOf"[1]);
    assert Ascii.IsLower("propertyIsEnumerable"[1]);
    assert Ascii.IsLower("toLocaleString"[1]);
    assert Ascii.IsLower("toString"[1]);
    assert Ascii.IsLower("valueOf"[1]);
    assert Ascii.IsLower("__proto__"[2]);
    assert Ascii.IsLower("__defineGetter__"[2]);
    assert Ascii.IsLower("__defineSetter__"[2]);
    assert Ascii.IsLower("__lookupGetter__"[2]);
    assert Ascii.IsLower("__lookupSetter__"[2]);
  }

  /** The three entries, reachable in any case; any other name misses. */
  lemma TableEntries()
    ensures Lookup("npm") == Lookup("Npm") == Lookup("NPM")
      == Some(PackageManagerCommands("npx --no-install", "npm run"))
    ensures Lookup("pnpm") == Lookup("PNPM")
      == Some(PackageManagerCommands("pnpm", "pnpm run"))
    ensures Lookup("yarn") == Lookup("Yarn") == Lookup("YARN")
      == Some(PackageManagerCommands("yarn", "yarn run"))
    ensures Lookup("bun").None? && Lookup("").None?
  {
    assert Ascii.Upper("npm") == Ascii.Upper("Npm") == Ascii.Upper("NPM") == "NPM";
    assert Ascii.Upper("pnpm") == Ascii.Upper("PNPM") == "PNPM";
    assert Ascii.Upper("yarn") == Ascii.Upper("Yarn") == Ascii.Upper("YARN") == "YARN";
    assert Ascii.Upper("bun") == "BUN";
  }

  /** The effects of `run([commands.script, name], packageRoot)` when a build
      script is named: one command. */
  function ScriptEffects(commands: PackageManagerCommands, script: Option<string>, root: string): (r: seq<Effect>)
    ensures AllExec(r)
    ensures |r| == if script.Some? then 1 else 0
  {
    if script.None? then []
    else [Exec(Utils.CommandString(Utils.Argv([Some(commands.script), script])), root)]
  }

  /** The command line of the build script: the script prefix and the
      script name, separated by one space. */
  lemma ScriptLine(commands: PackageManagerCommands, name: string)
    requires commands.script != ""
    ensures Utils.CommandString(Utils.Argv([Some(commands.script), Some(name)]))
      == if name == "" then commands.script else commands.script + " " + name
  {
    var argv := [Some(commands.script), Some(name)];
    assert argv[1..] == [Some(name)] && argv[1..][1..] == [];
    assert Utils.Tokens(argv[1..][1..]) == [];
    assert Utils.Tokens(argv[1..]) == if name == "" then [] else [name];
    var tokens := Utils.Tokens(argv);
    if name == "" {
      assert tokens == [commands.script];
    } else {
      assert tokens == [commands.script, name];
      assert tokens[1..] == [name];
      assert Ascii.Join(tokens, " ") == commands.script + " " + Ascii.Join([name], " ");
    }
  }

  /** The tokens of one electron-builder run: the fixed head, then
      `--<arch>` when one architecture is being built, then the tail. */
  function PackagingArgv(head: seq<Option<string>>, arch: Option<string>, tail: seq<Option<string>>): seq<Option<string>>
  {
    head + (if arch.Some? then [Some("--" + arch.value)] else []) + tail
  }

  /** The electron-builder runs: one per architecture, in list order, or a
      single run without an architecture token when the list is empty. */
  function FanOut(head: seq<Option<string>>, archs: seq<string>, tail: seq<Option<string>>, root: string): (r: seq<Effect>)
    ensures AllExec(r)
  {
    if |archs| == 0 then
      [Exec(Utils.CommandString(Utils.Argv(PackagingArgv(head, None, tail))), root)]
    else
      seq(|archs|, i requires 0 <= i < |archs| =>
        Exec(Utils.CommandString(Utils.Argv(PackagingArgv(head, Some(archs[i]), tail))), root))
  }

  /** The architecture token comes right after the head's tokens; with and
      without it the rendered tokens are otherwise the same. */
  lemma ArchTokenPlacement(head: seq<Option<string>>, arch: string, tail: seq<Option<string>>)
    ensures Utils.Tokens(PackagingArgv(head, Some(arch), tail))
      == Utils.Tokens(head) + ["--" + arch] + Utils.Tokens(tail)
    ensures Utils.Tokens(PackagingArgv(head, None, tail))
      == Utils.Tokens(head) + Utils.Tokens(tail)
  {
    var a := [Some("--" + arch)];
    Utils.TokensAppend(head + a, tail);
    Utils.TokensAppend(head, a);
    assert Utils.Tokens(a) == ["--" + arch] by {
      assert a[1..] == [];
    }
    assert head + [] == head;
    Utils.TokensAppend(head, tail);
  }

  /** The tokens of a packaging command, from the tokens of its head and
      its tail. */
  lemma PackagingTokensFrom(head: seq<Option<string>>, arch: Option<string>, tail: seq<Option<string>>,
                            h: seq<string>, t: seq<string>)
    requires Utils.Tokens(head) == h && Utils.Tokens(tail) == t
    ensures Utils.Tokens(PackagingArgv(head, arch, tail))
      == h + (if arch.Some? then ["--" + arch.value] else []) + t
  {
    if arch.Some? {
      ArchTokenPlacement(head, arch.value, tail);
    } else {
      ArchTokenPlacement(head, "", tail);
    }
  }

  /** The architectures builder collects: only the list of the platform
      being built. */
  function Archs(q: BuilderParams): (r: seq<string>)
    ensures q.platform == Linux ==> r == q.linux.arch.GetOr([])
    ensures q.platform == Mac ==> r == q.mac.arch.GetOr([])
    ensures q.platform == Windows ==> r == q.windows.arch.GetOr([])
  {
    match q.platform
    case Linux => q.linux.arch.GetOr([])
    case Mac => q.mac.arch.GetOr([])
    case Windows => q.windows.arch.GetOr([])
  }

  /** The environment writes of the signing switch: CSC_* for mac,
      WIN_CSC_* for windows, nothing for linux. */
  function SigningEffects(q: BuilderParams): (r: seq<Effect>)
    ensures AllWrite(r)
  {
    match q.platform
    case Linux => []
    case Mac =>
      Utils.SetEnvEffects("CSC_LINK", q.mac.cert) + Utils.SetEnvEffects("CSC_KEY_PASSWORD", q.mac.password)
    case Windows =>
      Utils.SetEnvEffects("WIN_CSC_LINK", q.windows.cert) + Utils.SetEnvEffects("WIN_CSC_KEY_PASSWORD", q.windows.password)
  }

  /** The signing credential builder stores under environment variable
      `name` for the platform being built, if any. */
  function Credential(q: BuilderParams, name: string): Option<string>
  {
    match q.platform
    case Linux => None
    case Mac =>
      if name == "CSC_LINK" then q.mac.cert
      else if name == "CSC_KEY_PASSWORD" then q.mac.password
      else None
    case Windows =>
      if name == "WIN_CSC_LINK" then q.windows.cert
      else if name == "WIN_CSC_KEY_PASSWORD" then q.windows.password
      else None
  }

  /** `commands.electronBuilder`, 'electron-builder' and the platform flag. */
  function Head(commands: PackageManagerCommands, platform: Platform): seq<Option<string>>
  {
    [Some(commands.electronBuilder), Some("electron-builder"), Some(PlatformFlag(platform))]
  }

  /** The publish flag and the extra arguments. A missing publish flag is
      the empty string, which the filter drops (see PackagingArgvAsWritten
      for the null the source passes). */
  function Tail(q: BuilderParams): seq<Option<string>>
  {
    [Some(if q.Releasing() then "--publish always" else ""), Some(q.Args())]
  }

  /** What builder does, as data: the error it throws or the effects it
      causes, in order. */
  function Plan(q: BuilderParams, manifestDirs: set<string>): (r: Outcome)
    ensures r.error.Some? ==> r.effects == []
    ensures r.error.Some? ==> r.error == Some(UnsupportedManager(q.Manager())) || r.error == Some(ManifestNotFound)
  {
    match Lookup(q.Manager())
    case None => Outcome([], Some(UnsupportedManager(q.Manager())))
    case Some(commands) =>
      if q.Root() !in manifestDirs then Outcome([], Some(ManifestNotFound))
      else Outcome(
        ScriptEffects(commands, q.buildScriptName, q.Root())
          + (SigningEffects(q) + Utils.SetEnvEffects("GH_TOKEN", Some(q.githubToken)))
          + FanOut(Head(commands, q.platform), Archs(q), Tail(q), q.Root()),
        None)
  }

  /** The command line of one electron-builder run. */
  function PackagingLine(commands: PackageManagerCommands, q: BuilderParams, arch: Option<string>): string
  {
    Utils.CommandString(Utils.Argv(PackagingArgv(Head(commands, q.platform), arch, Tail(q))))
  }

  /** An unsupported package manager, then a missing package.json, is
      thrown before any command runs and before any variable is written. */
  lemma RejectsBeforeAnyEffect(q: BuilderParams, manifestDirs: set<string>)
    ensures var o := Plan(q, manifestDirs);
      && (o.error.Some? <==> Lookup(q.Manager()).None? || q.Root() !in manifestDirs)
      && (o.error.Some? ==> o.effects == [])
      && (Lookup(q.Manager()).None? ==> o.error == Some(UnsupportedManager(q.Manager())))
      && (Lookup(q.Manager()).Some? && q.Root() !in manifestDirs ==> o.error == Some(ManifestNotFound))
  {
  }

  /** The commands of a successful build: the build script first, if named,
      as "<script prefix> <name>" in packageRoot; then one electron-builder
      run per architecture of the platform being built, in list order, or
      exactly one run without an architecture token when there is none. */
  lemma CommandSequence(q: BuilderParams, manifestDirs: set<string>)
    requires Plan(q, manifestDirs).error.None?
    ensures var cmds := Commands(Plan(q, manifestDirs).effects);
      var c := Lookup(q.Manager()).value;
      var s := if q.buildScriptName.Some? then 1 else 0;
      var archs := Archs(q);
      && |cmds| == s + (if |archs| == 0 then 1 else |archs|)
      && (q.buildScriptName.Some? ==>
            var name := q.buildScriptName.value;
            cmds[0] == Exec(if name == "" then c.script else c.script + " " + name, q.Root()))
      && (forall i | 0 <= i < |archs| :: cmds[s + i] == Exec(PackagingLine(c, q, Some(archs[i])), q.Root()))
      && (|archs| == 0 ==> cmds[s] == Exec(PackagingLine(c, q, None), q.Root()))
  {
    var c := Lookup(q.Manager()).value;
    var script := ScriptEffects(c, q.buildScriptName, q.Root());
    var writes := SigningEffects(q) + Utils.SetEnvEffects("GH_TOKEN", Some(q.githubToken));
    var runs := FanOut(Head(c, q.platform), Archs(q), Tail(q), q.Root());
    SuccessfulPlan(q, manifestDirs);
    CommandsAroundWrites(map[], script, writes, runs);
    FanOutLines(c, q);
    if q.buildScriptName.Some? {
      ScriptLine(c, q.buildScriptName.value);
    }
    var cmds := Commands(Plan(q, manifestDirs).effects);
    assert cmds == script + runs;
    LayoutCount(q, cmds, script, runs);
    LayoutScript(c, q, cmds, script, runs);
    LayoutRuns(c, q, cmds, script, runs);
    LayoutSingleRun(c, q, cmds, script, runs);
  }

  /** How many commands there are: the script run, if any, and the
      electron-builder runs. */
  lemma LayoutCount(q: BuilderParams, cmds: seq<Effect>, script: seq<Effect>, runs: seq<Effect>)
    requires cmds == script + runs
    requires |script| == if q.buildScriptName.Some? then 1 else 0
    requires |runs| == if |Archs(q)| == 0 then 1 else |Archs(q)|
    ensures |cmds| == (if q.buildScriptName.Some? then 1 else 0) + (if |Archs(q)| == 0 then 1 else |Archs(q)|)
  {
  }

  /** The script run, if any, comes first. */
  lemma LayoutScript(c: PackageManagerCommands, q: BuilderParams, cmds: seq<Effect>, script: seq<Effect>, runs: seq<Effect>)
    requires cmds == script + runs
    requires q.buildScriptName.Some? ==>
      var name := q.buildScriptName.value;
      |script| == 1 && script[0] == Exec(if name == "" then c.script else c.script + " " + name, q.Root())
    ensures q.buildScriptName.Some? ==>
      var name := q.buildScriptName.value;
      cmds[0] == Exec(if name == "" then c.script else c.script + " " + name, q.Root())
  {
  }

  /** The electron-builder runs follow the script run, one per architecture
      in order. */
  lemma LayoutRuns(c: PackageManagerCommands, q: BuilderParams, cmds: seq<Effect>, script: seq<Effect>, runs: seq<Effect>)
    requires cmds == script + runs
    requires |script| == if q.buildScriptName.Some? then 1 else 0
    requires runs == FanOut(Head(c, q.platform), Archs(q), Tail(q), q.Root())
    ensures var s := if q.buildScriptName.Some? then 1 else 0;
      forall i | 0 <= i < |Archs(q)| :: cmds[s + i] == Exec(PackagingLine(c, q, Some(Archs(q)[i])), q.Root())
  {
    var s := if q.buildScriptName.Some? then 1 else 0;
    forall i | 0 <= i < |Archs(q)|
      ensures cmds[s + i] == Exec(PackagingLine(c, q, Some(Archs(q)[i])), q.Root())
    {
      LayoutRunAt(c, q, cmds, script, runs, i);
    }
  }

  /** The run for one architecture, after the script run. */
  lemma LayoutRunAt(c: PackageManagerCommands, q: BuilderParams, cmds: seq<Effect>, script: seq<Effect>, runs: seq<Effect>, i: int)
    requires cmds == script + runs
    requires |script| == if q.buildScriptName.Some? then 1 else 0
    requires runs == FanOut(Head(c, q.platform), Archs(q), Tail(q), q.Root())
    requires 0 <= i < |Archs(q)|
    ensures cmds[(if q.buildScriptName.Some? then 1 else 0) + i] == Exec(PackagingLine(c, q, Some(Archs(q)[i])), q.Root())
  {
    RunAt(c, q, runs, i);
    RunAfter(cmds, script, runs, if q.buildScriptName.Some? then 1 else 0, i, runs[i]);
  }

  /** The run for one architecture is its electron-builder line. */
  lemma RunAt(c: PackageManagerCommands, q: BuilderParams, runs: seq<Effect>, i: int)
    requires runs == FanOut(Head(c, q.platform), Archs(q), Tail(q), q.Root())
    requires 0 <= i < |Archs(q)|
    ensures |runs| == |Archs(q)| && runs[i] == Exec(PackagingLine(c, q, Some(Archs(q)[i])), q.Root())
  {
  }

  /** Without architectures, the single electron-builder run follows the
      script run. */
  lemma LayoutSingleRun(c: PackageManagerCommands, q: BuilderParams, cmds: seq<Effect>, script: seq<Effect>, runs: seq<Effect>)
    requires cmds == script + runs
    requires |script| == if q.buildScriptName.Some? then 1 else 0
    requires runs == FanOut(Head(c, q.platform), Archs(q), Tail(q), q.Root())
    ensures var s := if q.buildScriptName.Some? then 1 else 0;
      |Archs(q)| == 0 ==> cmds[s] == Exec(PackagingLine(c, q, None), q.Root())
  {
    if |Archs(q)| == 0 {
      RunAfter(cmds, script, runs, if q.buildScriptName.Some? then 1 else 0, 0, Exec(PackagingLine(c, q, None), q.Root()));
    }
  }

  /** The effects of a build that throws nothing. */
  lemma SuccessfulPlan(q: BuilderParams, manifestDirs: set<string>)
    requires Plan(q, manifestDirs).error.None?
    ensures Lookup(q.Manager()).Some? && q.Root() in manifestDirs
    ensures var c := Lookup(q.Manager()).value;
      Plan(q, manifestDirs).effects
        == ScriptEffects(c, q.buildScriptName, q.Root())
           + (SigningEffects(q) + Utils.SetEnvEffects("GH_TOKEN", Some(q.githubToken)))
           + FanOut(Head(c, q.platform), Archs(q), Tail(q), q.Root())
  {
  }

  /** The runs of FanOut, one command line each. */
  lemma FanOutLines(c: PackageManagerCommands, q: BuilderParams)
    ensures var runs := FanOut(Head(c, q.platform), Archs(q), Tail(q), q.Root());
      && |runs| == (if |Archs(q)| == 0 then 1 else |Archs(q)|)
      && (forall i | 0 <= i < |Archs(q)| :: runs[i] == Exec(PackagingLine(c, q, Some(Archs(q)[i])), q.Root()))
      && (|Archs(q)| == 0 ==> runs[0] == Exec(PackagingLine(c, q, None), q.Root()))
  {
  }

  /** The tokens of one electron-builder run: the packager prefix,
      'electron-builder' and the platform flag; then `--<arch>` right after
      the platform flag when building one architecture; then
      "--publish always" only when releasing; then the extra arguments
      unless they are empty. */
  lemma PackagingTokens(commands: PackageManagerCommands, q: BuilderParams, arch: Option<string>)
    requires commands.electronBuilder != ""
    ensures Utils.Tokens(PackagingArgv(Head(commands, q.platform), arch, Tail(q)))
      == [commands.electronBuilder, "electron-builder", PlatformFlag(q.platform)]
         + (if arch.Some? then ["--" + arch.value] else [])
         + (if q.Releasing() then ["--publish always"] else [])
         + (if q.Args() == "" then [] else [q.Args()])
  {
    HeadTokens(commands, q.platform);
    TailTokens(q);
    PackagingTokensFrom(Head(commands, q.platform), arch, Tail(q),
      [commands.electronBuilder, "electron-builder", PlatformFlag(q.platform)],
      (if q.Releasing() then ["--publish always"] else []) + (if q.Args() == "" then [] else [q.Args()]));
  }

  lemma HeadTokens(commands: PackageManagerCommands, platform: Platform)
    requires commands.electronBuilder != ""
    ensures Utils.Tokens(Head(commands, platform))
      == [commands.electronBuilder, "electron-builder", PlatformFlag(platform)]
  {
    var fixed := [commands.electronBuilder, "electron-builder", PlatformFlag(platform)];
    assert Head(commands, platform) == Utils.Lift(fixed);
    Utils.TokensKeepsNonEmpty(fixed);
  }

  lemma TailTokens(q: BuilderParams)
    ensures Utils.Tokens(Tail(q))
      == (if q.Releasing() then ["--publish always"] else [])
         + (if q.Args() == "" then [] else [q.Args()])
  {
    var tail := Tail(q);
    assert tail == [tail[0]] + [tail[1]];
    Utils.TokensAppend([tail[0]], [tail[1]]);
    Utils.TokensSingle(tail[0]);
    Utils.TokensSingle(tail[1]);
  }

  /** Architectures come only from the platform being built: changing the
      other two platforms' lists changes nothing. */
  lemma OtherPlatformsArchsIgnored(q: BuilderParams, manifestDirs: set<string>,
                                   linuxArch: Option<seq<string>>, macArch: Option<seq<string>>,
                                   windowsArch: Option<seq<string>>)
    ensures var q' := q.(
        linux := if q.platform == Linux then q.linux else q.linux.(arch := linuxArch),
        mac := if q.platform == Mac then q.mac else q.mac.(arch := macArch),
        windows := if q.platform == Windows then q.windows else q.windows.(arch := windowsArch));
      Plan(q', manifestDirs) == Plan(q, manifestDirs)
  {
  }

  lemma MacFlag()
    ensures PlatformFlag(Mac) == "--mac"
  {
  }

  /** The variable names builder writes are already upper case. */
  lemma VariableNamesUpperCase()
    ensures Ascii.Upper("GH_TOKEN") == "GH_TOKEN"
    ensures Ascii.Upper("CSC_LINK") == "CSC_LINK"
    ensures Ascii.Upper("CSC_KEY_PASSWORD") == "CSC_KEY_PASSWORD"
    ensures Ascii.Upper("WIN_CSC_LINK") == "WIN_CSC_LINK"
    ensures Ascii.Upper("WIN_CSC_KEY_PASSWORD") == "WIN_CSC_KEY_PASSWORD"
  {
    Ascii.UpperFixesUpperCase("GH_TOKEN");
    Ascii.UpperFixesUpperCase("CSC_LINK");
    Ascii.UpperFixesUpperCase("CSC_KEY_PASSWORD");
    Ascii.UpperFixesUpperCase("WIN_CSC_LINK");
    Ascii.UpperFixesUpperCase("WIN_CSC_KEY_PASSWORD");
  }

  /** Two setEnv calls in a row, for two different upper-case names. */
  lemma TwoWrites(env: map<string, string>, n1: string, v1: Option<string>, n2: string, v2: Option<string>)
    requires Ascii.Upper(n1) == n1 && Ascii.Upper(n2) == n2 && n1 != n2
    ensures var e := Replay(env, Utils.SetEnvEffects(n1, v1) + Utils.SetEnvEffects(n2, v2));
      forall name :: Get(e, name) ==
        if name == n1 && v1.Some? then v1
        else if name == n2 && v2.Some? then v2
        else Get(env, name)
  {
    ReplayAppend(env, Utils.SetEnvEffects(n1, v1), Utils.SetEnvEffects(n2, v2));
    Utils.ReplaySetEnv(env, n1, v1);
    Utils.ReplaySetEnv(Replay(env, Utils.SetEnvEffects(n1, v1)), n2, v2);
  }

  /** The signing switch writes exactly the credentials given for the
      platform being built. */
  lemma SigningEnvironment(q: BuilderParams, env: map<string, string>)
    ensures var e := Replay(env, SigningEffects(q));
      forall name :: Get(e, name) ==
        if Credential(q, name).Some? then Credential(q, name) else Get(env, name)
  {
    VariableNamesUpperCase();
    match q.platform {
      case Linux =>
      case Mac =>
        TwoWrites(env, "CSC_LINK", q.mac.cert, "CSC_KEY_PASSWORD", q.mac.password);
      case Windows =>
        TwoWrites(env, "WIN_CSC_LINK", q.windows.cert, "WIN_CSC_KEY_PASSWORD", q.windows.password);
    }
  }

  /** The environment after a successful build: GH_TOKEN holds the token;
      for mac, CSC_LINK and CSC_KEY_PASSWORD hold the mac certificate and
      password when given; for windows, WIN_CSC_LINK and
      WIN_CSC_KEY_PASSWORD hold the windows ones; every other variable, and
      every credential not given, keeps its value. */
  lemma EnvironmentAfterBuild(q: BuilderParams, manifestDirs: set<string>, env: map<string, string>)
    requires Plan(q, manifestDirs).error.None?
    ensures var e := Replay(env, Plan(q, manifestDirs).effects);
      forall name :: Get(e, name) ==
        if name == "GH_TOKEN" then Some(q.githubToken)
        else if Credential(q, name).Some? then Credential(q, name)
        else Get(env, name)
  {
    var c := Lookup(q.Manager()).value;
    var script := ScriptEffects(c, q.buildScriptName, q.Root());
    var gh := Utils.SetEnvEffects("GH_TOKEN", Some(q.githubToken));
    var writes := SigningEffects(q) + gh;
    var runs := FanOut(Head(c, q.platform), Archs(q), Tail(q), q.Root());
    assert Plan(q, manifestDirs).effects == script + writes + runs;
    CommandsAroundWrites(env, script, writes, runs);
    ReplayAppend(env, SigningEffects(q), gh);
    VariableNamesUpperCase();
    Utils.ReplaySetEnv(Replay(env, SigningEffects(q)), "GH_TOKEN", Some(q.githubToken));
    SigningEnvironment(q, env);
  }

  /** The electron-builder tokens as src/builder.ts writes them: the
      publish flag is null, not a string, when not releasing. */
  function PackagingArgvAsWritten(commands: PackageManagerCommands, q: BuilderParams, arch: Option<string>): seq<Option<string>>
  {
    PackagingArgv(Head(commands, q.platform), arch,
      [if q.Releasing() then Some("--publish always") else None, Some(q.Args())])
  }

  /** Without release (the default), the tokens handed to run hold a null,
      so run's filter would read `.length` of null and throw before any
      electron-builder command starts. */
  lemma NullPublishFlagReachesRun(commands: PackageManagerCommands, q: BuilderParams, arch: Option<string>)
    requires !q.Releasing()
    ensures !Utils.AllStrings(PackagingArgvAsWritten(commands, q, arch))
  {
    var argv := PackagingArgvAsWritten(commands, q, arch);
    var k := if arch.Some? then 4 else 3;
    assert argv[k] == None;
  }

  /** run([commands.script, buildScriptName], packageRoot), when a build
      script is named. */
  method RunBuildScript(p: Process, commands: PackageManagerCommands, script: Option<string>, root: string)
    modifies p
    ensures p.env == old(p.env)
    ensures p.trace == old(p.trace) + ScriptEffects(commands, script, root)
  {
    if script.Some? {
      Utils.Run(p, Utils.Argv([Some(commands.script), script]), root);
    }
  }

  /** The `archs.forEach(...)` loop: one electron-builder run per
      architecture, in order. */
  method RunEachArch(p: Process, head: seq<Option<string>>, archs: seq<string>, tail: seq<Option<string>>, root: string)
    requires |archs| > 0 && Utils.AllStrings(head) && Utils.AllStrings(tail)
    modifies p
    ensures p.env == old(p.env)
    ensures p.trace == old(p.trace) + FanOut(head, archs, tail, root)
  {
    ghost var runs := FanOut(head, archs, tail, root);
    var i := 0;
    while i < |archs|
      invariant 0 <= i <= |archs|
      invariant p.env == old(p.env)
      invariant p.trace == old(p.trace) + runs[..i]
    {
      Utils.Run(p, Utils.Argv(PackagingArgv(head, Some(archs[i]), tail)), root);
      assert runs[..i + 1] == runs[..i] + [runs[i]];
      i := i + 1;
    }
    assert runs[..i] == runs;
  }

  /** The signing switch of builder: collect the architectures of the
      platform being built and write its certificate variables. */
  method CollectArchsAndSign(p: Process, q: BuilderParams) returns (archs: seq<string>)
    modifies p
    ensures archs == Archs(q)
    ensures p.trace == old(p.trace) + SigningEffects(q)
    ensures p.env == Replay(old(p.env), SigningEffects(q))
  {
    archs := [];
    match q.platform {
      case Linux =>
        if q.linux.arch.Some? {
          archs := archs + q.linux.arch.value;
        }
      case Mac =>
        if q.mac.arch.Some? {
          archs := archs + q.mac.arch.value;
        }
        Utils.SetEnv(p, "CSC_LINK", q.mac.cert);
        Utils.SetEnv(p, "CSC_KEY_PASSWORD", q.mac.password);
        ReplayAppend(old(p.env), Utils.SetEnvEffects("CSC_LINK", q.mac.cert),
          Utils.SetEnvEffects("CSC_KEY_PASSWORD", q.mac.password));
      case Windows =>
        if q.windows.arch.Some? {
          archs := archs + q.windows.arch.value;
        }
        Utils.SetEnv(p, "WIN_CSC_LINK", q.windows.cert);
        Utils.SetEnv(p, "WIN_CSC_KEY_PASSWORD", q.windows.password);
        ReplayAppend(old(p.env), Utils.SetEnvEffects("WIN_CSC_LINK", q.windows.cert),
          Utils.SetEnvEffects("WIN_CSC_KEY_PASSWORD", q.windows.password));
    }
  }

  /** builder, in its corrected form: the publish flag of a build that does
      not release is "" where src/builder.ts:102 passes null (see
      NullPublishFlagReachesRun for the code as written). */
  method Builder(p: Process, q: BuilderParams) returns (error: Option<BuildError>)
    modifies p
    ensures error == Plan(q, p.manifestDirs).error
    ensures p.trace == old(p.trace) + Plan(q, p.manifestDirs).effects
    ensures p.env == Replay(old(p.env), Plan(q, p.manifestDirs).effects)
  {
    var args := q.args.GetOr("");
    var packageManager := q.packageManager.GetOr("NPM");
    var packageRoot := q.packageRoot.GetOr(".");
    var release := q.release.GetOr(false);

    var commands := Lookup(packageManager);
    if commands.None? {
      return Some(UnsupportedManager(packageManager));
    }
    if !p.HasManifest(packageRoot) {
      return Some(ManifestNotFound);
    }

    RunBuildScript(p, commands.value, q.buildScriptName, packageRoot);
    ghost var afterScript := p.trace;
    var archs := CollectArchsAndSign(p, q);
    Utils.SetEnv(p, "GH_TOKEN", Some(q.githubToken));
    ghost var afterWrites := p.trace;
    ghost var envAfterWrites := p.env;

    var platformFlag := PlatformFlag(q.platform);
    // "" where the source has null: the corrected flag.
    var publishFlag := if release then "--publish always" else "";
    var head := [Some(commands.value.electronBuilder), Some("electron-builder"), Some(platformFlag)];
    var tail := [Some(publishFlag), Some(args)];

    if |archs| > 0 {
      RunEachArch(p, head, archs, tail, packageRoot);
    } else {
      Utils.Run(p, Utils.Argv(PackagingArgv(head, None, tail)), packageRoot);
    }
    BuilderPlan(q, p.manifestDirs, commands.value, old(p.env), old(p.trace), afterScript, afterWrites,
      envAfterWrites, p.env, p.trace);
    return None;
  }

  /** The steps of builder add up to Plan. */
  lemma BuilderPlan(q: BuilderParams, manifestDirs: set<string>, commands: PackageManagerCommands,
                    env0: map<string, string>, trace0: seq<Effect>, afterScript: seq<Effect>,
                    afterWrites: seq<Effect>, envAfterWrites: map<string, string>,
                    env: map<string, string>, trace: seq<Effect>)
    requires Lookup(q.Manager()) == Some(commands) && q.Root() in manifestDirs
    requires afterScript == trace0 + ScriptEffects(commands, q.buildScriptName, q.Root())
    requires afterWrites == afterScript + SigningEffects(q) + Utils.SetEnvEffects("GH_TOKEN", Some(q.githubToken))
    requires envAfterWrites == Replay(Replay(env0, SigningEffects(q)), Utils.SetEnvEffects("GH_TOKEN", Some(q.githubToken)))
    requires env == envAfterWrites
    requires trace == afterWrites + FanOut(Head(commands, q.platform), Archs(q), Tail(q), q.Root())
    ensures Plan(q, manifestDirs).error.None?
    ensures trace == trace0 + Plan(q, manifestDirs).effects
    ensures env == Replay(env0, Plan(q, manifestDirs).effects)
  {
    PlanOnSuccess(q, manifestDirs, commands);
    Assemble(env0, trace0, ScriptEffects(commands, q.buildScriptName, q.Root()), SigningEffects(q),
      Utils.SetEnvEffects("GH_TOKEN", Some(q.githubToken)),
      FanOut(Head(commands, q.platform), Archs(q), Tail(q), q.Root()), env, trace);
  }

  /** The outcome of a build that passes both checks. */
  lemma PlanOnSuccess(q: BuilderParams, manifestDirs: set<string>, commands: PackageManagerCommands)
    requires Lookup(q.Manager()) == Some(commands) && q.Root() in manifestDirs
    ensures Plan(q, manifestDirs) == Outcome(
      ScriptEffects(commands, q.buildScriptName, q.Root())
        + (SigningEffects(q) + Utils.SetEnvEffects("GH_TOKEN", Some(q.githubToken)))
        + FanOut(Head(commands, q.platform), Archs(q), Tail(q), q.Root()),
      None)
  {
  }
}
