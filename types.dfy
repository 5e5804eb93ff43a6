/** The shapes of src/types.ts and the errors the builders throw. */
module Types {
  import opened Runtime

  /** Platform = 'linux' | 'mac' | 'windows'. */
  datatype Platform = Linux | Mac | Windows

  /** The platform's name as the TypeScript string literal spells it. */
  function PlatformName(p: Platform): string
  {
    match p
    case Linux => "linux"
    case Mac => "mac"
    case Windows => "windows"
  }

  /** `--${platform}`, the electron-builder platform switch. */
  function PlatformFlag(p: Platform): string
  {
    "--" + PlatformName(p)
  }

  /** The linux part of BuilderParams: an optional architecture list. */
  datatype LinuxOptions = LinuxOptions(arch: Option<seq<string>>)

  /** The mac and windows parts of BuilderParams: an optional architecture
      list, an optional signing certificate and its password. */
  datatype PlatformOptions = PlatformOptions(
    arch: Option<seq<string>>,
    cert: Option<string>,
    password: Option<string>)

  /** BuilderParams: every optional field is an Option; the builders apply
      the destructuring defaults (args = '', packageManager = 'NPM',
      packageRoot = '.', release = false). */
  datatype BuilderParams = BuilderParams(
    args: Option<string>,
    buildScriptName: Option<string>,
    githubToken: string,
    linux: LinuxOptions,
    mac: PlatformOptions,
    packageManager: Option<string>,
    packageRoot: Option<string>,
    platform: Platform,
    release: Option<bool>,
    windows: PlatformOptions)
  {
    function Manager(): string { packageManager.GetOr("NPM") }
    function Root(): string { packageRoot.GetOr(".") }
    function Args(): string { args.GetOr("") }
    function Releasing(): bool { release.GetOr(false) }
  }

  /** PackageManagerCommands: the prefix that runs the electron-builder
      binary and the prefix that runs a package.json script. */
  datatype PackageManagerCommands = PackageManagerCommands(electronBuilder: string, script: string)

  /** What the builders and the entry points throw. */
  datatype BuildError =
    | UnsupportedManager(name: string)
    | ManifestNotFound
    | TokenNotFound
    | UnsupportedPlatform(host: string)

  /** The Error message each case is thrown with. */
  function Message(e: BuildError): string
  {
    match e
    case UnsupportedManager(name) => name + " is not supported"
    case ManifestNotFound => "package.json not found"
    case TokenNotFound => "Github Token not found"
    case UnsupportedPlatform(host) => "Platform " + host + " is not supported"
  }

  /** The result of a builder run: the effects it caused, in order, and the
      error it threw, if any. */
  datatype Outcome = Outcome(effects: seq<Effect>, error: Option<BuildError>)
}
