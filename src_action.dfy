/** src/action.ts: a variant of the builder with an exact-case table lookup,
    "yarn run" as YARN's electron-builder prefix, a mac branch that collects
    no architectures, and its own main. Signing variables, the publish flag
    and the command rendering are those of src/builder.ts. */
module SrcAction {
  import opened Runtime
  import opened Types
  import Ascii
  import Utils
  import SrcBuilder
  import DistIndex

  /** packageManagerCommands of src/action.ts. */
  const Table: map<string, PackageManagerCommands> := map[
    "NPM" := PackageManagerCommands("npx --no-install", "npm run"),
    "PNPM" := PackageManagerCommands("pnpm", "pnpm run"),
    "YARN" := PackageManagerCommands("yarn run", "yarn run")]

  /** packageManagerCommands[packageManager]: the name is used as given. */
  function Lookup(name: string): (r: Option<PackageManagerCommands>)
    ensures r.Some? <==> name in {"NPM", "PNPM", "YARN"}
    ensures r.Some? ==> r.value == Table[name]
  {
    if name in Table then Some(Table[name]) else None
  }

  /** Only the upper-case names are found; YARN runs electron-builder
      through "yarn run". Where both tables have an entry they differ only
      in that prefix. */
  lemma TableEntries()
    ensures Lookup("NPM") == Some(PackageManagerCommands("npx --no-install", "npm run"))
    ensures Lookup("PNPM") == Some(PackageManagerCommands("pnpm", "pnpm run"))
    ensures Lookup("YARN") == Some(PackageManagerCommands("yarn run", "yarn run"))
    ensures Lookup("npm").None? && Lookup("Yarn").None? && Lookup("pnpm").None?
    ensures forall name | Lookup(name).Some? ::
      && SrcBuilder.Lookup(name) == Some(Lookup(name).value.(electronBuilder :=
           if name == "YARN" then "yarn" else Lookup(name).value.electronBuilder))
  {
    assert "npm" != "NPM" && "Yarn" != "YARN" && "pnpm" != "PNPM";
    assert Ascii.Upper("NPM") == "NPM" && Ascii.Upper("PNPM") == "PNPM" && Ascii.Upper("YARN") == "YARN";
  }

  /** What `packageManagerCommands[name]` yields in JavaScript: an own
      entry of the table, a member inherited from Object.prototype, or
      undefined. */
  datatype Property = Own(commands: PackageManagerCommands) | Inherited | Undefined

  /** The lookup as written: an inherited name is not undefined. */
  function LookupAsWritten(name: string): (r: Property)
    ensures r.Own? <==> Lookup(name).Some?
    ensures r.Own? ==> Lookup(name) == Some(r.commands)
    ensures r == Undefined <==> name !in Table && name !in InheritedKeys
  {
    if name in Table then Own(Table[name])
    else if name in InheritedKeys then Inherited
    else Undefined
  }

  /** `commands.electronBuilder` of the value found: undefined unless it is
      an own entry. */
  function ElectronBuilderField(r: Property): (f: Option<string>)
    ensures f.Some? <==> r.Own?
  {
    if r.Own? then Some(r.commands.electronBuilder) else None
  }

  /** packageManager "toString" (or any other inherited name) passes the
      `commands === undefined` check, so "toString is not supported" is
      never thrown; the electron-builder run then gets an undefined first
      token, and run's filter reads its length. */
  lemma InheritedNamePassesCheck(q: BuilderParams, arch: Option<string>)
    requires q.Manager() == "toString"
    ensures LookupAsWritten(q.Manager()) == Inherited
    ensures !Utils.AllStrings(SrcBuilder.PackagingArgv(
      [ElectronBuilderField(LookupAsWritten(q.Manager())), Some("electron-builder"), Some(PlatformFlag(q.platform))],
      arch, SrcBuilder.Tail(q)))
  {
    var argv := SrcBuilder.PackagingArgv(
      [ElectronBuilderField(LookupAsWritten(q.Manager())), Some("electron-builder"), Some(PlatformFlag(q.platform))],
      arch, SrcBuilder.Tail(q));
    assert argv[0] == None;
  }

  /** The lookup the model uses reads own entries only, so every inherited
      name is rejected as unsupported before any effect. */
  lemma InheritedNameRejected(q: BuilderParams, manifestDirs: set<string>)
    requires q.Manager() in InheritedKeys
    ensures Plan(q, manifestDirs) == Outcome([], Some(UnsupportedManager(q.Manager())))
  {
    InheritedKeysAreNoManagers();
  }

  /** No inherited property name is one of the table's names: each is
      longer than four characters. */
  lemma InheritedKeysAreNoManagers()
    ensures forall k | k in InheritedKeys :: k != "NPM" && k != "PNPM" && k != "YARN"
  {
    assert forall k | k in InheritedKeys :: |k| > 4;
  }

  /** The architectures this builder collects: linux and windows lists; mac
      collects none. */
  function Archs(q: BuilderParams): (r: seq<string>)
    ensures q.platform == Linux ==> r == q.linux.arch.GetOr([])
    ensures q.platform == Mac ==> r == []
    ensures q.platform == Windows ==> r == q.windows.arch.GetOr([])
  {
    match q.platform
    case Linux => q.linux.arch.GetOr([])
    case Mac => []
    case Windows => q.windows.arch.GetOr([])
  }

  /** The architectures are those src/builder.ts collects, except that a
      mac build collects none. */
  lemma ArchsIgnoreMac(q: BuilderParams)
    ensures Archs(q) == if q.platform == Mac then [] else SrcBuilder.Archs(q)
  {
  }

  /** What builder does, as data. */
  function Plan(q: BuilderParams, manifestDirs: set<string>): (r: Outcome)
    ensures r.error.Some? ==> r.effects == []
    ensures r.error.Some? ==> r.error == Some(UnsupportedManager(q.Manager())) || r.error == Some(ManifestNotFound)
  {
    match Lookup(q.Manager())
    case None => Outcome([], Some(UnsupportedManager(q.Manager())))
    case Some(commands) =>
      if q.Root() !in manifestDirs then Outcome([], Some(ManifestNotFound))
      else Outcome(
        SrcBuilder.ScriptEffects(commands, q.buildScriptName, q.Root())
          + (SrcBuilder.SigningEffects(q) + Utils.SetEnvEffects("GH_TOKEN", Some(q.githubToken)))
          + SrcBuilder.FanOut(SrcBuilder.Head(commands, q.platform), Archs(q), SrcBuilder.Tail(q), q.Root()),
        None)
  }

  /** The command line of one electron-builder run. */
  function PackagingLine(commands: PackageManagerCommands, q: BuilderParams, arch: Option<string>): string
  {
    Utils.CommandString(Utils.Argv(SrcBuilder.PackagingArgv(SrcBuilder.Head(commands, q.platform), arch, SrcBuilder.Tail(q))))
  }

  /** Both checks come before the script run and every environment write;
      a rejected build has no effect. */
  lemma RejectsBeforeAnyEffect(q: BuilderParams, manifestDirs: set<string>)
    ensures var o := Plan(q, manifestDirs);
      && (o.error.Some? <==> q.Manager() !in {"NPM", "PNPM", "YARN"} || q.Root() !in manifestDirs)
      && (o.error.Some? ==> o.effects == [])
      && (q.Manager() !in {"NPM", "PNPM", "YARN"} ==> o.error == Some(UnsupportedManager(q.Manager())))
      && (Lookup(q.Manager()).Some? && q.Root() !in manifestDirs ==> o.error == Some(ManifestNotFound))
  {
  }

  /** The commands of a successful build are the script run and the
      electron-builder runs. */
  lemma PlanCommands(q: BuilderParams, manifestDirs: set<string>)
    requires Plan(q, manifestDirs).error.None?
    ensures Lookup(q.Manager()).Some?
    ensures var c := Lookup(q.Manager()).value;
      Commands(Plan(q, manifestDirs).effects)
        == SrcBuilder.ScriptEffects(c, q.buildScriptName, q.Root())
           + SrcBuilder.FanOut(SrcBuilder.Head(c, q.platform), Archs(q), SrcBuilder.Tail(q), q.Root())
  {
    var c := Lookup(q.Manager()).value;
    CommandsAroundWrites(map[], SrcBuilder.ScriptEffects(c, q.buildScriptName, q.Root()),
      SrcBuilder.SigningEffects(q) + Utils.SetEnvEffects("GH_TOKEN", Some(q.githubToken)),
      SrcBuilder.FanOut(SrcBuilder.Head(c, q.platform), Archs(q), SrcBuilder.Tail(q), q.Root()));
  }

  /** The runs of FanOut, one command line each. */
  lemma FanOutLines(c: PackageManagerCommands, q: BuilderParams)
    ensures var runs := SrcBuilder.FanOut(SrcBuilder.Head(c, q.platform), Archs(q), SrcBuilder.Tail(q), q.Root());
      && |runs| == (if |Archs(q)| == 0 then 1 else |Archs(q)|)
      && (forall i | 0 <= i < |Archs(q)| :: runs[i] == Exec(PackagingLine(c, q, Some(Archs(q)[i])), q.Root()))
      && (|Archs(q)| == 0 ==> runs[0] == Exec(PackagingLine(c, q, None), q.Root()))
  {
  }

  /** The commands of a successful build: the build script first, if named;
      then one electron-builder run per linux or windows architecture, in
      list order, or exactly one run without an architecture token. */
  lemma CommandSequence(q: BuilderParams, manifestDirs: set<string>)
    requires Plan(q, manifestDirs).error.None?
    ensures var cmds := Commands(Plan(q, manifestDirs).effects);
      var c := Lookup(q.Manager()).value;
      var s := if q.buildScriptName.Some? then 1 else 0;
      var archs := Archs(q);
      && |cmds| == s + (if |archs| == 0 then 1 else |archs|)
      && (q.buildScriptName.Some? ==>
            var name := q.buildScriptName.value;
            cmds[0] == Exec(if name == "" then c.script else c.script + " " + name, q.Root()))
      && (forall i | 0 <= i < |archs| :: cmds[s + i] == Exec(PackagingLine(c, q, Some(archs[i])), q.Root()))
      && (|archs| == 0 ==> cmds[s] == Exec(PackagingLine(c, q, None), q.Root()))
  {
    var c := Lookup(q.Manager()).value;
    var script := SrcBuilder.ScriptEffects(c, q.buildScriptName, q.Root());
    var runs := SrcBuilder.FanOut(SrcBuilder.Head(c, q.platform), Archs(q), SrcBuilder.Tail(q), q.Root());
    assert Commands(Plan(q, manifestDirs).effects) == script + runs by {
      PlanCommands(q, manifestDirs);
    }
    FanOutLines(c, q);
    if q.buildScriptName.Some? {
      SrcBuilder.ScriptLine(c, q.buildScriptName.value);
    }
    var cmds := Commands(Plan(q, manifestDirs).effects);
    LayoutCount(q, cmds, script, runs);
    LayoutScript(c, q, cmds, script, runs);
    LayoutRuns(c, q, cmds, script, runs);
    LayoutSingleRun(c, q, cmds, script, runs);
  }

  /** How many commands there are: the script run, if any, and the
      electron-builder runs. */
  lemma LayoutCount(q: BuilderParams, cmds: seq<Effect>, script: seq<Effect>, runs: seq<Effect>)
    requires cmds == script + runs
    requires |script| == if q.buildScriptName.Some? then 1 else 0
    requires |runs| == if |Archs(q)| == 0 then 1 else |Archs(q)|
    ensures |cmds| == (if q.buildScriptName.Some? then 1 else 0) + (if |Archs(q)| == 0 then 1 else |Archs(q)|)
  {
  }

  /** The script run, if any, comes first. */
  lemma LayoutScript(c: PackageManagerCommands, q: BuilderParams, cmds: seq<Effect>, script: seq<Effect>, runs: seq<Effect>)
    requires cmds == script + runs
    requires q.buildScriptName.Some? ==>
      var name := q.buildScriptName.value;
      |script| == 1 && script[0] == Exec(if name == "" then c.script else c.script + " " + name, q.Root())
    ensures q.buildScriptName.Some? ==>
      var name := q.buildScriptName.value;
      cmds[0] == Exec(if name == "" then c.script else c.script + " " + name, q.Root())
  {
  }

  /** The electron-builder runs follow the script run, one per architecture
      in order. */
  lemma LayoutRuns(c: PackageManagerCommands, q: BuilderParams, cmds: seq<Effect>, script: seq<Effect>, runs: seq<Effect>)
    requires cmds == script + runs
    requires |script| == if q.buildScriptName.Some? then 1 else 0
    requires runs == SrcBuilder.FanOut(SrcBuilder.Head(c, q.platform), Archs(q), SrcBuilder.Tail(q), q.Root())
    ensures var s := if q.buildScriptName.Some? then 1 else 0;
      forall i | 0 <= i < |Archs(q)| :: cmds[s + i] == Exec(PackagingLine(c, q, Some(Archs(q)[i])), q.Root())
  {
    var s := if q.buildScriptName.Some? then 1 else 0;
    forall i | 0 <= i < |Archs(q)|
      ensures cmds[s + i] == Exec(PackagingLine(c, q, Some(Archs(q)[i])), q.Root())
    {
      LayoutRunAt(c, q, cmds, script, runs, i);
    }
  }

  /** The run for one architecture, after the script run. */
  lemma LayoutRunAt(c: PackageManagerCommands, q: BuilderParams, cmds: seq<Effect>, script: seq<Effect>, runs: seq<Effect>, i: int)
    requires cmds == script + runs
    requires |script| == if q.buildScriptName.Some? then 1 else 0
    requires runs == SrcBuilder.FanOut(SrcBuilder.Head(c, q.platform), Archs(q), SrcBuilder.Tail(q), q.Root())
    requires 0 <= i < |Archs(q)|
    ensures cmds[(if q.buildScriptName.Some? then 1 else 0) + i] == Exec(PackagingLine(c, q, Some(Archs(q)[i])), q.Root())
  {
    RunAt(c, q, runs, i);
    RunAfter(cmds, script, runs, if q.buildScriptName.Some? then 1 else 0, i, runs[i]);
  }

  /** The run for one architecture is its electron-builder line. */
  lemma RunAt(c: PackageManagerCommands, q: BuilderParams, runs: seq<Effect>, i: int)
    requires runs == SrcBuilder.FanOut(SrcBuilder.Head(c, q.platform), Archs(q), SrcBuilder.Tail(q), q.Root())
    requires 0 <= i < |Archs(q)|
    ensures |runs| == |Archs(q)| && runs[i] == Exec(PackagingLine(c, q, Some(Archs(q)[i])), q.Root())
  {
  }

  /** Without architectures, the single electron-builder run follows the
      script run. */
  lemma LayoutSingleRun(c: PackageManagerCommands, q: BuilderParams, cmds: seq<Effect>, script: seq<Effect>, runs: seq<Effect>)
    requires cmds == script + runs
    requires |script| == if q.buildScriptName.Some? then 1 else 0
    requires runs == SrcBuilder.FanOut(SrcBuilder.Head(c, q.platform), Archs(q), SrcBuilder.Tail(q), q.Root())
    ensures var s := if q.buildScriptName.Some? then 1 else 0;
      |Archs(q)| == 0 ==> cmds[s] == Exec(PackagingLine(c, q, None), q.Root())
  {
    if |Archs(q)| == 0 {
      RunAfter(cmds, script, runs, if q.buildScriptName.Some? then 1 else 0, 0, Exec(PackagingLine(c, q, None), q.Root()));
    }
  }

  /** A mac build never fans out: whatever architectures are passed, exactly
      one electron-builder command runs, without an architecture token. */
  lemma MacRunsOnce(q: BuilderParams, manifestDirs: set<string>)
    requires q.platform == Mac && Plan(q, manifestDirs).error.None?
    ensures var cmds := Commands(Plan(q, manifestDirs).effects);
      var s := if q.buildScriptName.Some? then 1 else 0;
      && |cmds| == s + 1
      && cmds[s] == Exec(PackagingLine(Lookup(q.Manager()).value, q, None), q.Root())
  {
    CommandSequence(q, manifestDirs);
  }

  /** The environment after a successful build: GH_TOKEN holds the token;
      mac writes CSC_LINK and CSC_KEY_PASSWORD, windows WIN_CSC_LINK and
      WIN_CSC_KEY_PASSWORD, each when given; linux writes no certificate;
      nothing else changes. */
  lemma EnvironmentAfterBuild(q: BuilderParams, manifestDirs: set<string>, env: map<string, string>)
    requires Plan(q, manifestDirs).error.None?
    ensures var e := Replay(env, Plan(q, manifestDirs).effects);
      forall name :: Get(e, name) ==
        if name == "GH_TOKEN" then Some(q.githubToken)
        else if SrcBuilder.Credential(q, name).Some? then SrcBuilder.Credential(q, name)
        else Get(env, name)
  {
    var c := Lookup(q.Manager()).value;
    var script := SrcBuilder.ScriptEffects(c, q.buildScriptName, q.Root());
    var gh := Utils.SetEnvEffects("GH_TOKEN", Some(q.githubToken));
    var writes := SrcBuilder.SigningEffects(q) + gh;
    var runs := SrcBuilder.FanOut(SrcBuilder.Head(c, q.platform), Archs(q), SrcBuilder.Tail(q), q.Root());
    assert Plan(q, manifestDirs).effects == script + writes + runs;
    CommandsAroundWrites(env, script, writes, runs);
    ReplayAppend(env, SrcBuilder.SigningEffects(q), gh);
    SrcBuilder.VariableNamesUpperCase();
    Utils.ReplaySetEnv(Replay(env, SrcBuilder.SigningEffects(q)), "GH_TOKEN", Some(q.githubToken));
    SrcBuilder.SigningEnvironment(q, env);
  }

  /** The switch of builder: collect the linux or windows architectures and
      write the signing variables. */
  method CollectArchsAndSign(p: Process, q: BuilderParams) returns (archs: seq<string>)
    modifies p
    ensures archs == Archs(q)
    ensures p.trace == old(p.trace) + SrcBuilder.SigningEffects(q)
    ensures p.env == Replay(old(p.env), SrcBuilder.SigningEffects(q))
  {
    archs := [];
    match q.platform {
      case Linux =>
        if q.linux.arch.Some? {
          archs := archs + q.linux.arch.value;
        }
      case Mac =>
        Utils.SetEnv(p, "CSC_LINK", q.mac.cert);
        Utils.SetEnv(p, "CSC_KEY_PASSWORD", q.mac.password);
        ReplayAppend(old(p.env), Utils.SetEnvEffects("CSC_LINK", q.mac.cert),
          Utils.SetEnvEffects("CSC_KEY_PASSWORD", q.mac.password));
      case Windows =>
        if q.windows.arch.Some? {
          archs := archs + q.windows.arch.value;
        }
        Utils.SetEnv(p, "WIN_CSC_LINK", q.windows.cert);
        Utils.SetEnv(p, "WIN_CSC_KEY_PASSWORD", q.windows.password);
        ReplayAppend(old(p.env), Utils.SetEnvEffects("WIN_CSC_LINK", q.windows.cert),
          Utils.SetEnvEffects("WIN_CSC_KEY_PASSWORD", q.windows.password));
    }
  }

  /** builder of src/action.ts, with the corrected lookup: an inherited
      property name is rejected (see InheritedNamePassesCheck for the code
      as written). */
  method Builder(p: Process, q: BuilderParams) returns (error: Option<BuildError>)
    modifies p
    ensures error == Plan(q, p.manifestDirs).error
    ensures p.trace == old(p.trace) + Plan(q, p.manifestDirs).effects
    ensures p.env == Replay(old(p.env), Plan(q, p.manifestDirs).effects)
  {
    var args := q.args.GetOr("");
    var packageManager := q.packageManager.GetOr("NPM");
    var packageRoot := q.packageRoot.GetOr(".");
    var release := q.release.GetOr(false);

    var commands := Lookup(packageManager);
    if commands.None? {
      return Some(UnsupportedManager(packageManager));
    }
    if !p.HasManifest(packageRoot) {
      return Some(ManifestNotFound);
    }

    SrcBuilder.RunBuildScript(p, commands.value, q.buildScriptName, packageRoot);
    ghost var afterScript := p.trace;
    var archs := CollectArchsAndSign(p, q);
    Utils.SetEnv(p, "GH_TOKEN", Some(q.githubToken));
    ghost var afterWrites := p.trace;
    ghost var envAfterWrites := p.env;

    var platformFlag := PlatformFlag(q.platform);
    var publishFlag := if release then "--publish always" else "";
    var head := [Some(commands.value.electronBuilder), Some("electron-builder"), Some(platformFlag)];
    var tail := [Some(publishFlag), Some(args)];

    if |archs| > 0 {
      SrcBuilder.RunEachArch(p, head, archs, tail, packageRoot);
    } else {
      Utils.Run(p, Utils.Argv(SrcBuilder.PackagingArgv(head, None, tail)), packageRoot);
    }
    BuilderPlan(q, p.manifestDirs, commands.value, old(p.env), old(p.trace), afterScript, afterWrites,
      envAfterWrites, p.env, p.trace);
    return None;
  }

  /** The steps of builder add up to Plan. */
  lemma BuilderPlan(q: BuilderParams, manifestDirs: set<string>, commands: PackageManagerCommands,
                    env0: map<string, string>, trace0: seq<Effect>, afterScript: seq<Effect>,
                    afterWrites: seq<Effect>, envAfterWrites: map<string, string>,
                    env: map<string, string>, trace: seq<Effect>)
    requires Lookup(q.Manager()) == Some(commands) && q.Root() in manifestDirs
    requires afterScript == trace0 + SrcBuilder.ScriptEffects(commands, q.buildScriptName, q.Root())
    requires afterWrites == afterScript + SrcBuilder.SigningEffects(q) + Utils.SetEnvEffects("GH_TOKEN", Some(q.githubToken))
    requires envAfterWrites == Replay(Replay(env0, SrcBuilder.SigningEffects(q)), Utils.SetEnvEffects("GH_TOKEN", Some(q.githubToken)))
    requires env == envAfterWrites
    requires trace == afterWrites + SrcBuilder.FanOut(SrcBuilder.Head(commands, q.platform), Archs(q), SrcBuilder.Tail(q), q.Root())
    ensures Plan(q, manifestDirs).error.None?
    ensures trace == trace0 + Plan(q, manifestDirs).effects
    ensures env == Replay(env0, Plan(q, manifestDirs).effects)
  {
    var script := SrcBuilder.ScriptEffects(commands, q.buildScriptName, q.Root());
    var gh := Utils.SetEnvEffects("GH_TOKEN", Some(q.githubToken));
    var writes := SrcBuilder.SigningEffects(q) + gh;
    var runs := SrcBuilder.FanOut(SrcBuilder.Head(commands, q.platform), Archs(q), SrcBuilder.Tail(q), q.Root());
    assert Plan(q, manifestDirs) == Outcome(script + writes + runs, None);
    Regroup(trace0, script, SrcBuilder.SigningEffects(q), gh, runs);
    assert env == Replay(env0, writes) by {
      ReplayAppend(env0, SrcBuilder.SigningEffects(q), gh);
    }
    CommandsAroundWrites(env0, script, writes, runs);
  }

  /** The builder parameters main reads from the inputs; the architecture
      lists are read with the multi-line reader of dist/index.js. */
  function InputParams(env: map<string, string>, token: string, host: string): BuilderParams
  {
    BuilderParams(
      args := Utils.GetInput(env, "args"),
      buildScriptName := Utils.GetInput(env, "build_script_name"),
      githubToken := token,
      linux := LinuxOptions(Some(DistIndex.Lines(env, "linux_arch"))),
      mac := PlatformOptions(None, Utils.GetInput(env, "mac_certs"), Utils.GetInput(env, "mac_certs_password")),
      packageManager := Utils.GetInput(env, "package_manager"),
      packageRoot := Utils.GetInput(env, "package_root"),
      platform := Utils.GetPlatform(host),
      release := Some(Utils.GetInput(env, "release") == Some("true")),
      windows := PlatformOptions(Some(DistIndex.Lines(env, "windows_arch")),
        Utils.GetInput(env, "windows_certs"), Utils.GetInput(env, "windows_certs_password")))
  }

  /** What main does, as data: the token check, then builder. */
  function EntryPlan(env: map<string, string>, host: string, manifestDirs: set<string>): (r: Outcome)
    ensures r.error == Some(TokenNotFound) <==> Utils.GetInput(env, "github_token").None?
    ensures r.error == Some(TokenNotFound) ==> r.effects == []
  {
    match Utils.GetInput(env, "github_token")
    case None => Outcome([], Some(TokenNotFound))
    case Some(token) => Plan(InputParams(env, token, host), manifestDirs)
  }

  /** main throws before builder when the token input is unset (an empty one
      passes); the build releases exactly when the release input is "true". */
  lemma EntryChecks(env: map<string, string>, host: string, manifestDirs: set<string>)
    ensures "INPUT_GITHUB_TOKEN" !in env ==> EntryPlan(env, host, manifestDirs) == Outcome([], Some(TokenNotFound))
    ensures forall token ::
      (InputParams(env, token, host).Releasing() <==> "INPUT_RELEASE" in env && env["INPUT_RELEASE"] == "true")
  {
    Utils.TokenKey();
    Utils.ReleaseKey();
  }

  /** main of src/action.ts. */
  method Entry(p: Process) returns (error: Option<BuildError>)
    modifies p
    ensures error == EntryPlan(old(p.env), p.platform, p.manifestDirs).error
    ensures p.trace == old(p.trace) + EntryPlan(old(p.env), p.platform, p.manifestDirs).effects
    ensures p.env == Replay(old(p.env), EntryPlan(old(p.env), p.platform, p.manifestDirs).effects)
  {
    var githubToken := Utils.GetInput(p.env, "github_token");
    if githubToken.None? {
      return Some(TokenNotFound);
    }
    var linuxArch := DistIndex.GetInputMultiLine(p.env, "linux_arch");
    var windowsArch := DistIndex.GetInputMultiLine(p.env, "windows_arch");
    var q := BuilderParams(
      args := Utils.GetInput(p.env, "args"),
      buildScriptName := Utils.GetInput(p.env, "build_script_name"),
      githubToken := githubToken.value,
      linux := LinuxOptions(Some(linuxArch)),
      mac := PlatformOptions(None, Utils.GetInput(p.env, "mac_certs"), Utils.GetInput(p.env, "mac_certs_password")),
      packageManager := Utils.GetInput(p.env, "package_manager"),
      packageRoot := Utils.GetInput(p.env, "package_root"),
      platform := Utils.GetPlatform(p.platform),
      release := Some(Utils.GetInput(p.env, "release") == Some("true")),
      windows := PlatformOptions(Some(windowsArch),
        Utils.GetInput(p.env, "windows_certs"), Utils.GetInput(p.env, "windows_certs_password")));
    assert q == InputParams(old(p.env), githubToken.value, p.platform);
    error := Builder(p, q);
  }
}
