/** dist/action.js: the older bundled builder. Its helpers are the bundled
    copies of src/utils.ts (getPlatform defaults to linux, setEnv skips only
    null and undefined, run requires string tokens) and its table is the one
    of src/action.ts, looked up by exact name. GH_TOKEN is written before
    the checks; mac and windows certificates share the names CSC_LINK and
    CSC_KEY_PASSWORD; and exactly one electron-builder command runs, with no
    architecture token. */
module DistAction {
  import opened Runtime
  import opened Types
  import Ascii
  import Utils
  import SrcBuilder
  import SrcAction

  /** The GH_TOKEN write that opens builder. */
  function TokenEffects(q: BuilderParams): (r: seq<Effect>)
    ensures AllWrite(r)
  {
    Utils.SetEnvEffects("GH_TOKEN", Some(q.githubToken))
  }

  /** The signing switch: the platform's certificate and password, under the
      same two names for mac and windows; nothing for linux. */
  function SigningEffects(q: BuilderParams): (r: seq<Effect>)
    ensures AllWrite(r)
  {
    match q.platform
    case Linux => []
    case Mac =>
      Utils.SetEnvEffects("CSC_LINK", q.mac.cert) + Utils.SetEnvEffects("CSC_KEY_PASSWORD", q.mac.password)
    case Windows =>
      Utils.SetEnvEffects("CSC_LINK", q.windows.cert) + Utils.SetEnvEffects("CSC_KEY_PASSWORD", q.windows.password)
  }

  /** The credential stored under `name` for the platform being built. */
  function Credential(q: BuilderParams, name: string): Option<string>
  {
    match q.platform
    case Linux => None
    case Mac =>
      if name == "CSC_LINK" then q.mac.cert
      else if name == "CSC_KEY_PASSWORD" then q.mac.password
      else None
    case Windows =>
      if name == "CSC_LINK" then q.windows.cert
      else if name == "CSC_KEY_PASSWORD" then q.windows.password
      else None
  }

  /** The one electron-builder command line: no architecture token. */
  function PackagingLine(commands: PackageManagerCommands, q: BuilderParams): string
  {
    Utils.CommandString(Utils.Argv(SrcBuilder.PackagingArgv(SrcBuilder.Head(commands, q.platform), None, SrcBuilder.Tail(q))))
  }

  /** What builder does, as data. */
  function Plan(q: BuilderParams, manifestDirs: set<string>): (r: Outcome)
    ensures r.error.Some? ==> r.effects == TokenEffects(q)
    ensures r.error.Some? ==> r.error == Some(UnsupportedManager(q.Manager())) || r.error == Some(ManifestNotFound)
  {
    match SrcAction.Lookup(q.Manager())
    case None => Outcome(TokenEffects(q), Some(UnsupportedManager(q.Manager())))
    case Some(commands) =>
      if q.Root() !in manifestDirs then Outcome(TokenEffects(q), Some(ManifestNotFound))
      else Outcome(
        TokenEffects(q)
          + SrcBuilder.ScriptEffects(commands, q.buildScriptName, q.Root())
          + SigningEffects(q)
          + [Exec(PackagingLine(commands, q), q.Root())],
        None)
  }

  /** GH_TOKEN is written first, so it is set even when the package manager
      is unknown or package.json is missing; a rejected build does nothing
      else. */
  lemma TokenWrittenFirst(q: BuilderParams, manifestDirs: set<string>, env: map<string, string>)
    ensures var o := Plan(q, manifestDirs);
      && |o.effects| > 0 && o.effects[0] == Write("GH_TOKEN", q.githubToken)
      && (o.error.Some? <==> q.Manager() !in {"NPM", "PNPM", "YARN"} || q.Root() !in manifestDirs)
      && (o.error.Some? ==> o.effects == [Write("GH_TOKEN", q.githubToken)])
      && (o.error.Some? ==> Replay(env, o.effects) == env["GH_TOKEN" := q.githubToken])
      && (q.Manager() !in {"NPM", "PNPM", "YARN"} ==> o.error == Some(UnsupportedManager(q.Manager())))
  {
    SrcBuilder.VariableNamesUpperCase();
    var o := Plan(q, manifestDirs);
    assert o.effects == TokenEffects(q) + o.effects[1..];
  }

  /** The lookup the model uses reads own entries only, so every inherited
      property name is rejected as unsupported right after the GH_TOKEN
      write. */
  lemma InheritedNameRejected(q: BuilderParams, manifestDirs: set<string>)
    requires q.Manager() in InheritedKeys
    ensures Plan(q, manifestDirs) == Outcome(TokenEffects(q), Some(UnsupportedManager(q.Manager())))
  {
    SrcAction.InheritedKeysAreNoManagers();
  }

  /** The effects of a successful build, regrouped: commands between the
      two groups of writes. */
  lemma SuccessfulEffects(q: BuilderParams, manifestDirs: set<string>, env: map<string, string>)
    requires Plan(q, manifestDirs).error.None?
    ensures SrcAction.Lookup(q.Manager()).Some?
    ensures var c := SrcAction.Lookup(q.Manager()).value;
      var cmds := SrcBuilder.ScriptEffects(c, q.buildScriptName, q.Root()) + [Exec(PackagingLine(c, q), q.Root())];
      && Commands(Plan(q, manifestDirs).effects) == cmds
      && Replay(env, Plan(q, manifestDirs).effects) == Replay(Replay(env, TokenEffects(q)), SigningEffects(q))
  {
    var c := SrcAction.Lookup(q.Manager()).value;
    PlanOnSuccess(q, manifestDirs, c);
    WritesAroundCommands(env, TokenEffects(q), SrcBuilder.ScriptEffects(c, q.buildScriptName, q.Root()),
      SigningEffects(q), [Exec(PackagingLine(c, q), q.Root())]);
  }

  /** Plan when the package manager is known and package.json is found. */
  lemma PlanOnSuccess(q: BuilderParams, manifestDirs: set<string>, commands: PackageManagerCommands)
    requires SrcAction.Lookup(q.Manager()) == Some(commands) && q.Root() in manifestDirs
    ensures Plan(q, manifestDirs) == Outcome(
      TokenEffects(q) + SrcBuilder.ScriptEffects(commands, q.buildScriptName, q.Root())
        + SigningEffects(q) + [Exec(PackagingLine(commands, q), q.Root())],
      None)
  {
  }

  /** The commands of a successful build: the build script, if named, then
      exactly one electron-builder command, whose tokens carry no
      architecture. */
  lemma SingleRun(q: BuilderParams, manifestDirs: set<string>)
    requires Plan(q, manifestDirs).error.None?
    ensures var cmds := Commands(Plan(q, manifestDirs).effects);
      var c := SrcAction.Lookup(q.Manager()).value;
      var s := if q.buildScriptName.Some? then 1 else 0;
      && |cmds| == s + 1
      && (q.buildScriptName.Some? ==>
            var name := q.buildScriptName.value;
            cmds[0] == Exec(if name == "" then c.script else c.script + " " + name, q.Root()))
      && cmds[s] == Exec(PackagingLine(c, q), q.Root())
      && Utils.Tokens(SrcBuilder.PackagingArgv(SrcBuilder.Head(c, q.platform), None, SrcBuilder.Tail(q)))
         == [c.electronBuilder, "electron-builder", PlatformFlag(q.platform)]
            + (if q.Releasing() then ["--publish always"] else [])
            + (if q.Args() == "" then [] else [q.Args()])
  {
    var c := SrcAction.Lookup(q.Manager()).value;
    SuccessfulEffects(q, manifestDirs, map[]);
    if q.buildScriptName.Some? {
      SrcBuilder.ScriptLine(c, q.buildScriptName.value);
    }
    SrcBuilder.PackagingTokens(c, q, None);
  }

  /** The environment after a successful build: GH_TOKEN holds the token;
      for mac and for windows alike, CSC_LINK and CSC_KEY_PASSWORD hold the
      platform's certificate and password when given; nothing else
      changes. */
  lemma EnvironmentAfterBuild(q: BuilderParams, manifestDirs: set<string>, env: map<string, string>)
    requires Plan(q, manifestDirs).error.None?
    ensures var e := Replay(env, Plan(q, manifestDirs).effects);
      forall name :: Get(e, name) ==
        if Credential(q, name).Some? then Credential(q, name)
        else if name == "GH_TOKEN" then Some(q.githubToken)
        else Get(env, name)
  {
    SuccessfulEffects(q, manifestDirs, env);
    SrcBuilder.VariableNamesUpperCase();
    Utils.ReplaySetEnv(env, "GH_TOKEN", Some(q.githubToken));
    SigningEnvironment(q, Replay(env, TokenEffects(q)));
    assert Credential(q, "GH_TOKEN").None? by {
      assert "GH_TOKEN"[0] != "CSC_LINK"[0];
      assert |"GH_TOKEN"| != |"CSC_KEY_PASSWORD"|;
    }
  }

  /** The signing switch writes exactly the credentials given for the
      platform being built. */
  lemma SigningEnvironment(q: BuilderParams, env: map<string, string>)
    ensures var e := Replay(env, SigningEffects(q));
      forall name :: Get(e, name) ==
        if Credential(q, name).Some? then Credential(q, name) else Get(env, name)
  {
    SrcBuilder.VariableNamesUpperCase();
    match q.platform {
      case Linux =>
      case Mac =>
        SrcBuilder.TwoWrites(env, "CSC_LINK", q.mac.cert, "CSC_KEY_PASSWORD", q.mac.password);
      case Windows =>
        SrcBuilder.TwoWrites(env, "CSC_LINK", q.windows.cert, "CSC_KEY_PASSWORD", q.windows.password);
    }
  }

  /** builder of dist/action.js, with the corrected lookup of src/action.ts:
      an inherited property name is rejected after the GH_TOKEN write (see
      InheritedNameRejected). */
  method Builder(p: Process, q: BuilderParams) returns (error: Option<BuildError>)
    modifies p
    ensures error == Plan(q, p.manifestDirs).error
    ensures p.trace == old(p.trace) + Plan(q, p.manifestDirs).effects
    ensures p.env == Replay(old(p.env), Plan(q, p.manifestDirs).effects)
  {
    var args := q.args.GetOr("");
    var packageManager := q.packageManager.GetOr("NPM");
    var packageRoot := q.packageRoot.GetOr(".");
    var release := q.release.GetOr(false);

    Utils.SetEnv(p, "GH_TOKEN", Some(q.githubToken));
    ghost var afterToken := p.trace;
    ghost var envAfterToken := p.env;
    var commands := SrcAction.Lookup(packageManager);
    if commands.None? {
      return Some(UnsupportedManager(packageManager));
    }
    if !p.HasManifest(packageRoot) {
      return Some(ManifestNotFound);
    }
    SrcBuilder.RunBuildScript(p, commands.value, q.buildScriptName, packageRoot);
    ghost var afterScript := p.trace;
    Sign(p, q);
    ghost var afterSigning := p.trace;
    ghost var envAfterSigning := p.env;
    var head := [Some(commands.value.electronBuilder), Some("electron-builder"), Some(PlatformFlag(q.platform))];
    var tail := [Some(if release then "--publish always" else ""), Some(args)];
    Utils.Run(p, Utils.Argv(SrcBuilder.PackagingArgv(head, None, tail)), packageRoot);
    BuilderPlan(q, p.manifestDirs, commands.value, old(p.env), old(p.trace), afterToken, envAfterToken,
      afterScript, afterSigning, envAfterSigning, p.env, p.trace);
    return None;
  }

  /** The signing switch of builder. */
  method Sign(p: Process, q: BuilderParams)
    modifies p
    ensures p.trace == old(p.trace) + SigningEffects(q)
    ensures p.env == Replay(old(p.env), SigningEffects(q))
  {
    match q.platform {
      case Mac =>
        Utils.SetEnv(p, "CSC_LINK", q.mac.cert);
        Utils.SetEnv(p, "CSC_KEY_PASSWORD", q.mac.password);
        ReplayAppend(old(p.env), Utils.SetEnvEffects("CSC_LINK", q.mac.cert),
          Utils.SetEnvEffects("CSC_KEY_PASSWORD", q.mac.password));
      case Windows =>
        Utils.SetEnv(p, "CSC_LINK", q.windows.cert);
        Utils.SetEnv(p, "CSC_KEY_PASSWORD", q.windows.password);
        ReplayAppend(old(p.env), Utils.SetEnvEffects("CSC_LINK", q.windows.cert),
          Utils.SetEnvEffects("CSC_KEY_PASSWORD", q.windows.password));
      case Linux =>
    }
  }

  /** The steps of builder add up to Plan. */
  lemma BuilderPlan(q: BuilderParams, manifestDirs: set<string>, commands: PackageManagerCommands,
                    env0: map<string, string>, trace0: seq<Effect>, afterToken: seq<Effect>,
                    envAfterToken: map<string, string>, afterScript: seq<Effect>, afterSigning: seq<Effect>,
                    envAfterSigning: map<string, string>, env: map<string, string>, trace: seq<Effect>)
    requires SrcAction.Lookup(q.Manager()) == Some(commands) && q.Root() in manifestDirs
    requires afterToken == trace0 + TokenEffects(q)
    requires envAfterToken == Replay(env0, TokenEffects(q))
    requires afterScript == afterToken + SrcBuilder.ScriptEffects(commands, q.buildScriptName, q.Root())
    requires afterSigning == afterScript + SigningEffects(q)
    requires envAfterSigning == Replay(envAfterToken, SigningEffects(q))
    requires env == envAfterSigning
    requires trace == afterSigning + [Exec(PackagingLine(commands, q), q.Root())]
    ensures Plan(q, manifestDirs).error.None?
    ensures trace == trace0 + Plan(q, manifestDirs).effects
    ensures env == Replay(env0, Plan(q, manifestDirs).effects)
  {
    PlanOnSuccess(q, manifestDirs, commands);
    Regroup4(trace0, TokenEffects(q), SrcBuilder.ScriptEffects(commands, q.buildScriptName, q.Root()),
      SigningEffects(q), [Exec(PackagingLine(commands, q), q.Root())]);
    SuccessfulEffects(q, manifestDirs, env0);
  }

  /** The builder parameters main reads from the inputs: certificates and
      passwords only, no architecture lists. */
  function InputParams(env: map<string, string>, token: string, host: string): BuilderParams
  {
    BuilderParams(
      args := Utils.GetInput(env, "args"),
      buildScriptName := Utils.GetInput(env, "build_script_name"),
      githubToken := token,
      linux := LinuxOptions(None),
      mac := PlatformOptions(None, Utils.GetInput(env, "mac_certs"), Utils.GetInput(env, "mac_certs_password")),
      packageManager := Utils.GetInput(env, "package_manager"),
      packageRoot := Utils.GetInput(env, "package_root"),
      platform := Utils.GetPlatform(host),
      release := Some(Utils.GetInput(env, "release") == Some("true")),
      windows := PlatformOptions(None, Utils.GetInput(env, "windows_certs"), Utils.GetInput(env, "windows_certs_password")))
  }

  /** What main does, as data: the token check, then builder. */
  function EntryPlan(env: map<string, string>, host: string, manifestDirs: set<string>): (r: Outcome)
    ensures r.error == Some(TokenNotFound) <==> Utils.GetInput(env, "github_token").None?
    ensures r.error == Some(TokenNotFound) ==> r.effects == []
  {
    match Utils.GetInput(env, "github_token")
    case None => Outcome([], Some(TokenNotFound))
    case Some(token) => Plan(InputParams(env, token, host), manifestDirs)
  }

  /** main: an unset token input throws before anything is written; any host
      other than darwin and win32 is built as linux, which writes no
      certificate. */
  lemma EntryChecks(env: map<string, string>, host: string, manifestDirs: set<string>)
    ensures "INPUT_GITHUB_TOKEN" !in env ==> EntryPlan(env, host, manifestDirs) == Outcome([], Some(TokenNotFound))
    ensures host != "darwin" && host != "win32" ==>
      forall token, name :: Credential(InputParams(env, token, host), name).None?
  {
    Utils.TokenKey();
  }

  /** main of dist/action.js. */
  method Entry(p: Process) returns (error: Option<BuildError>)
    modifies p
    ensures error == EntryPlan(old(p.env), p.platform, p.manifestDirs).error
    ensures p.trace == old(p.trace) + EntryPlan(old(p.env), p.platform, p.manifestDirs).effects
    ensures p.env == Replay(old(p.env), EntryPlan(old(p.env), p.platform, p.manifestDirs).effects)
  {
    var githubToken := Utils.GetInput(p.env, "github_token");
    if githubToken.None? {
      return Some(TokenNotFound);
    }
    var q := BuilderParams(
      args := Utils.GetInput(p.env, "args"),
      buildScriptName := Utils.GetInput(p.env, "build_script_name"),
      githubToken := githubToken.value,
      linux := LinuxOptions(None),
      mac := PlatformOptions(None, Utils.GetInput(p.env, "mac_certs"), Utils.GetInput(p.env, "mac_certs_password")),
      packageManager := Utils.GetInput(p.env, "package_manager"),
      packageRoot := Utils.GetInput(p.env, "package_root"),
      platform := Utils.GetPlatform(p.platform),
      release := Some(Utils.GetInput(p.env, "release") == Some("true")),
      windows := PlatformOptions(None, Utils.GetInput(p.env, "windows_certs"), Utils.GetInput(p.env, "windows_certs_password")));
    error := Builder(p, q);
  }
}
