# electron-builder action: a Dafny model of the build step

This project models the electron-builder build step of a GitHub Action. The
step exists in four near-duplicate variants, and each is modelled on its own:

- `src/builder.ts` with its helpers in `src/utils.ts`;
- the newer bundle `dist/index.js`;
- `src/action.ts`;
- the older bundle `dist/action.js`.

The variants share their outline, but not every step:

1. Every variant looks the package manager up in a three-entry table.
   `src/builder.ts` and `dist/index.js` upper-case the name first; the other
   two use it as given. `dist/action.js` writes `GH_TOKEN` before this check.
2. Every variant requires a `package.json` under `packageRoot`.
3. Every variant runs an optional script first.
4. `src/builder.ts` and `src/action.ts` collect the architecture list of the
   platform being built in a `switch`, and `dist/index.js` in three `if`s.
   `src/action.ts` collects none for mac. `dist/action.js` collects none.
5. `src/builder.ts`, `src/action.ts` and `dist/action.js` write the signing
   variables of mac and windows into `process.env`. All four write
   `GH_TOKEN`; `dist/index.js` writes nothing else.
6. `src/builder.ts`, `src/action.ts` and `dist/index.js` run one space-joined
   `electron-builder` command per architecture in a `forEach` loop, or exactly
   one command when the list is empty. `dist/action.js` always runs exactly
   one, with no architecture token.

The `main` of `dist/index.js`, `src/action.ts` and `dist/action.js` first
reads the action's inputs from `INPUT_<NAME>` variables. `src/builder.ts` has
no `main` of its own.

How the model is built:

- **State.** `Runtime.Process` is a class. Its state is `process.env` (a map
  the methods update) and a ghost trace of effects, in order. An effect is an
  environment write or a `(command line, cwd)` pair handed to `execSync`.
  `process.platform` and the set of directories holding a `package.json` are
  constants of the process.
- **Specification.** Each variant has a pure `Plan(params, manifestDirs)`. It
  returns the error the builder throws, if any, and the effects it causes.
- **Implementation.** Each variant's `Builder` method follows the source
  statement by statement: the `switch` or the `if`s that push architectures,
  the `setEnv` calls, and the `forEach` loop of `run` calls, or the single
  `run` of `dist/action.js`. There are two exceptions, the corrections of the
  findings below. In `src/builder.ts` the publish flag
  of a build that does not release is `""` rather than `null`. In
  `src/action.ts` and `dist/action.js` the table lookup reads own entries
  only. Each `Builder` is proved to return Plan's error, to append exactly
  Plan's effects to the trace, and to leave `process.env` as Plan's writes
  make it. So `Plan` and the lemmas about it describe the corrected
  builders.
- **Entry points.** Each of the three `main`s is modelled the same way, as
  `Entry` and `EntryPlan`.
- **Properties.** Lemmas about `Plan` and `EntryPlan` state the properties:
  the checks come before any effect, the order and text of the command lines,
  the environment after a build, and the differences between variants.
- **Strings.** `toUpperCase`, `trim`, `split` and `join` are modelled on ASCII
  (module `Ascii`). JavaScript's `null` and `undefined` are both `None`.

## Model

| member | source | states |
|---|---|---|
| Runtime.Process.Assign | src/utils.ts:31 | `process.env[name] = value` binds exactly that variable and records the write |
| Runtime.Process.Shell | src/utils.ts:42-46 | execSync leaves the environment alone and records the command line with its cwd |
| Ascii.UpperChar | src/utils.ts:20 | toUpperCase on one character: a lower-case ASCII letter moves to its capital, any other character is unchanged, and the result is never lower case |
| Ascii.UpperFixesUpperCase | src/utils.ts:31 | a name with no lower-case letter is unchanged by upper-casing |
| Ascii.UpperIdempotent | src/builder.ts:38 | upper-casing twice is upper-casing once |
| Ascii.Trim | dist/index.js:35 | trim removes exactly the leading and trailing whitespace; the result is empty exactly when the input is all whitespace, otherwise it starts and ends with a non-space |
| Ascii.TrimIdempotent | dist/index.js:35 | trimming twice is trimming once |
| Ascii.Split | dist/index.js:34 | split on a one-character separator yields at least one piece |
| Ascii.SplitPieces | dist/index.js:34 | no piece of a split contains the separator |
| Ascii.JoinSplit | dist/index.js:34 | joining the pieces of a split with the separator gives back the text |
| Ascii.SplitAt | dist/index.js:34 | splitting at the first separator gives the piece before it, then the pieces of the rest |
| Ascii.SplitJoin | dist/index.js:34 | splitting a join of separator-free pieces gives back the pieces |
| Ascii.SplitConcat | dist/index.js:34 | splitting `a + sep + b` gives the pieces of `a` followed by those of `b` |
| Utils.GetPlatform | src/utils.ts:5-17 | darwin is mac, win32 is windows, and every other host is linux, in both directions |
| Utils.TokenKey | src/utils.ts:19-21 | the github_token input is read from INPUT_GITHUB_TOKEN |
| Utils.ReleaseKey | src/utils.ts:19-21 | the release input is read from INPUT_RELEASE |
| Utils.GetInput | src/utils.ts:19-21 | the input is present exactly when `INPUT_` plus the upper-cased name is set, and is then its value, an empty one included |
| Utils.InputNameIgnoresCase | src/utils.ts:20 | a name and its upper-case form read the same input |
| Utils.ReplaySetEnv | src/utils.ts:23-32 | after setEnv, a missing value leaves the environment as it was; any string, the empty one included, is bound to the upper-cased name, and nothing else changes |
| Utils.SetEnv | src/utils.ts:23-32 | the method updates `process.env` exactly as ReplaySetEnv states |
| Utils.CommandWords | src/utils.ts:38-40 | a string command is passed as it is; for an array with some token kept, the space-separated words of the command line are the words of each kept token in order (so "npm run" gives two words), and exactly the kept tokens when none holds a space |
| Ascii.SplitJoinEach | src/utils.ts:39 | splitting a join gives the pieces of each joined text in order, whether or not the texts hold the separator |
| Utils.Tokens | src/utils.ts:38-40 | the filter keeps no more tokens than it is given |
| Utils.TokensNonEmpty | src/utils.ts:39 | every token the filter keeps is non-empty |
| Utils.TokensMembership | src/utils.ts:39 | a string survives the filter exactly when it is non-empty and was passed as a token |
| Utils.TokensAppend | src/utils.ts:39 | filtering preserves order: filtering a concatenation is concatenating the filtered parts |
| Utils.TokensKeepsNonEmpty | src/utils.ts:39 | non-empty string tokens all pass the filter, in order |
| Utils.TokensIdempotent | src/utils.ts:39 | filtering twice is filtering once |
| Utils.Run | src/utils.ts:34-47 | an array command needs every token to be a string; run records one command, the kept tokens joined by single spaces (or the plain string), in the given cwd, and changes no variable |
| SrcBuilder.Lookup | src/builder.ts:7-23 | the table is read under the upper-cased name: a hit exactly for NPM, PNPM and YARN in any case, and the hit is the table's entry |
| SrcBuilder.LookupIgnoresCase | src/builder.ts:37-38 | a name and its upper-case form find the same entry |
| SrcBuilder.TableEntries | src/builder.ts:11-22 | npm, Npm and NPM find ("npx --no-install", "npm run"); pnpm finds ("pnpm", "pnpm run"); yarn finds ("yarn", "yarn run"); other names miss |
| SrcBuilder.UpperNeverInherited | src/builder.ts:37-38 | no upper-cased name is a property that object literals inherit, so the table lookup only ever sees own entries |
| SrcBuilder.InheritedKeysHaveLower | src/builder.ts:37-38 | every inherited property name has a lower-case letter in its second or third place |
| SrcBuilder.Archs | src/builder.ts:58-96 | the architectures are the list of the platform being built, empty when it gives none |
| SrcBuilder.Plan | src/builder.ts:25-135 | builder throws only "not supported" for the package manager or "package.json not found", and a build that throws has no effect |
| SrcBuilder.RejectsBeforeAnyEffect | src/builder.ts:37-49 | the build fails exactly when the lookup misses or package.json is missing; an unknown manager is reported first, then the missing manifest; a failed build writes nothing and runs nothing |
| SrcBuilder.ScriptLine | src/builder.ts:54-56 | the build script runs as "<script prefix> <name>" |
| SrcBuilder.CommandSequence | src/builder.ts:54-134 | the commands of a successful build: the build script first, if named; then one electron-builder run per architecture, in list order, or exactly one without an architecture token |
| SrcBuilder.ScriptEffects | src/builder.ts:54-56 | the build script step only runs commands |
| SrcBuilder.FanOut | src/builder.ts:104-134 | the fan-out only runs commands |
| SrcBuilder.FanOutLines | src/builder.ts:104-134 | one run per architecture, in list order, each with its `--<arch>` token, or exactly one run without when the list is empty |
| SrcBuilder.SuccessfulPlan | src/builder.ts:37-134 | a build that throws nothing found its manager and package.json, and its effects are the script run, the signing and GH_TOKEN writes, then the runs |
| SrcBuilder.HeadTokens | src/builder.ts:111-113 | the fixed head renders as the packager prefix, electron-builder and the platform flag |
| SrcBuilder.SigningEffects | src/builder.ts:63-96 | the signing switch only writes variables |
| SrcBuilder.TwoWrites | src/builder.ts:76-78 | two setEnv calls on two different upper-case names bind each given value and change nothing else |
| SrcBuilder.ArchTokenPlacement | src/builder.ts:108-119 | the runs differ only in the `--<arch>` token, which comes right after the platform flag |
| SrcBuilder.PackagingTokens | src/builder.ts:100-134 | the tokens of one run: the packager prefix, electron-builder, the platform flag, the architecture token if any, "--publish always" only when releasing, and the arguments unless empty |
| SrcBuilder.TailTokens | src/builder.ts:102 | the publish flag renders only when releasing; empty arguments add no token |
| SrcBuilder.OtherPlatformsArchsIgnored | src/builder.ts:58-96 | changing the other platforms' architecture lists changes nothing in the build |
| SrcBuilder.MacFlag | src/builder.ts:100 | the mac platform flag is "--mac" |
| SrcBuilder.VariableNamesUpperCase | src/builder.ts:76-98 | the variable names builder writes are unchanged by setEnv's upper-casing |
| SrcBuilder.SigningEnvironment | src/builder.ts:63-96 | mac binds CSC_LINK and CSC_KEY_PASSWORD, windows binds WIN_CSC_LINK and WIN_CSC_KEY_PASSWORD, each only when given; linux binds none |
| SrcBuilder.EnvironmentAfterBuild | src/builder.ts:63-98 | after a successful build GH_TOKEN holds the token and the platform's given credentials are bound; every other variable keeps its value |
| SrcBuilder.NullPublishFlagReachesRun | src/builder.ts:102 | as written, a build that does not release passes null to run, which run's filter cannot take |
| SrcBuilder.RunBuildScript | src/builder.ts:54-56 | runs the build script command exactly when a script is named |
| SrcBuilder.RunEachArch | src/builder.ts:108-120 | the forEach loop appends exactly FanOut's runs, in order |
| SrcBuilder.CollectArchsAndSign | src/builder.ts:58-96 | the switch collects exactly the platform's architectures and performs exactly the signing writes |
| SrcBuilder.Builder | src/builder.ts:25-135 | builder throws Plan's error, appends exactly Plan's effects and leaves the environment as those writes make it |
| SrcBuilder.BuilderPlan | src/builder.ts:54-134 | the steps of a successful builder (script, signing, GH_TOKEN, runs) add up to Plan |
| DistIndex.GetPlatform | dist/index.js:7-22 | darwin, linux and win32 map to mac, linux and windows; every other host is rejected, in both directions |
| DistIndex.GetPlatformRefinesUtils | dist/index.js:7-22 | where this getPlatform names a platform it agrees with src/utils.ts; the hosts it rejects are the ones src/utils.ts treats as linux |
| DistIndex.IsValidString | dist/index.js:23-25 | isValidString accepts exactly the values that run's filter of src/utils.ts keeps |
| DistIndex.GetInput | dist/index.js:23-29 | an input is present exactly when its variable is set and non-empty |
| DistIndex.GetInputHidesEmpty | dist/index.js:26-29 | this getInput differs from src/utils.ts only by reporting an empty value as missing |
| DistIndex.CleanLines | dist/index.js:34-39 | the trimmed, non-blank pieces, in order; never more lines than pieces |
| DistIndex.GetInputMultiLine | dist/index.js:30-42 | returns exactly the cleaned lines of the input, and none when it is missing or empty |
| DistIndex.CleanPieces | dist/index.js:34-39 | the forEach loop pushes exactly the trimmed, non-blank pieces, in order |
| DistIndex.CleanLinesAreClean | dist/index.js:34-38 | from pieces without line breaks, every kept line is non-empty, its own trim, and free of line breaks |
| DistIndex.LinesAreClean | dist/index.js:34-38 | every returned line is non-empty, equal to its own trim and free of line breaks |
| DistIndex.CleanLinesAppend | dist/index.js:34-39 | cleaning keeps order and duplicates: cleaning a concatenation concatenates the cleaned parts |
| DistIndex.CleanLinesKeepsClean | dist/index.js:34-39 | clean lines pass unchanged |
| DistIndex.LinesOfConcat | dist/index.js:34-39 | two texts joined by a line break read as the lines of the first, then those of the second |
| DistIndex.LinesRoundTrip | dist/index.js:30-42 | clean lines written one per line are read back as they were |
| DistIndex.SetEnvEffects | dist/index.js:43-49 | setEnv causes at most one write, and only writes |
| DistIndex.SetEnvResult | dist/index.js:43-49 | setEnv binds the trimmed value under the upper-cased name unless the value is missing or blank; nothing else changes |
| DistIndex.SetEnv | dist/index.js:43-49 | the method updates `process.env` exactly as SetEnvResult states |
| DistIndex.Run | dist/index.js:50-57 | run accepts any tokens, drops missing and empty ones, and records one command in the given cwd |
| DistIndex.PublishFlag | dist/index.js:110 | the publish flag is always present: "--publish always" or "--publish never" |
| DistIndex.ConfigFlag | dist/index.js:108 | the config flag is absent without a config path, and is "--config <path>" with one |
| DistIndex.Archs | dist/index.js:97-106 | the architectures are the list of the platform being built, empty when it gives none |
| DistIndex.Plan | dist/index.js:74-139 | builder throws only "not supported" for the package manager or "package.json not found", and a build that throws has no effect |
| DistIndex.RejectsBeforeAnyEffect | dist/index.js:87-93 | the build fails exactly when the case-insensitive lookup misses or package.json is missing, and then does nothing |
| DistIndex.PackagingTokens | dist/index.js:108-138 | the tokens of one run: prefix, electron-builder, platform flag, architecture token if any, the publish flag, "--config <path>" when given, and the arguments unless empty |
| DistIndex.TailTokens | dist/index.js:108-110 | a missing config path and empty arguments add no token |
| DistIndex.CommandSequence | dist/index.js:94-138 | the script before the build, if any, then one run per architecture in order, or exactly one |
| DistIndex.SuccessfulPlan | dist/index.js:87-138 | a build that throws nothing found its manager and package.json, and its effects are the script run, the GH_TOKEN write, then the runs |
| DistIndex.PlanCommands | dist/index.js:94-138 | the commands of a successful build are the script run followed by the runs |
| DistIndex.FanOutLines | dist/index.js:111-138 | the runs of the fan-out, one command line per architecture, or one without |
| DistIndex.PlanSucceeds | dist/index.js:87-93 | a known manager and a present package.json let the build through |
| DistIndex.PnpmMacTokens | dist/index.js:128-138 | PNPM on mac without config, arguments or publish renders "pnpm electron-builder --mac --publish never" |
| DistIndex.PnpmOnMac | dist/index.js:65-138 | in that case the build runs exactly one command, that line, in packageRoot |
| DistIndex.EnvironmentAfterBuild | dist/index.js:107 | a successful build binds only GH_TOKEN (trimmed, unless blank) and no signing variable |
| DistIndex.CollectArchs | dist/index.js:97-106 | the three checks collect exactly the architectures of the platform being built |
| DistIndex.RunEachArch | dist/index.js:111-126 | the forEach loop appends exactly the fan-out's runs, in order |
| DistIndex.Builder | dist/index.js:74-139 | builder throws Plan's error, appends exactly Plan's effects and leaves the environment as those writes make it |
| DistIndex.BuilderPlan | dist/index.js:94-138 | the steps of a successful builder add up to Plan |
| DistIndex.EntryChecks | dist/index.js:142-170 | a missing or empty token is reported first, then an unsupported host, both before any effect; publishing happens exactly when the publish input is "true" |
| DistIndex.EntryPlan | dist/index.js:142-170 | main reports a missing token exactly when the token input is unset or empty, and an unsupported host exactly when the token is there and the host is not darwin, linux or win32; neither has any effect |
| DistIndex.Entry | dist/index.js:142-170 | main reports EntryPlan's error and causes exactly its effects |
| SrcAction.Lookup | src/action.ts:37-38 | the corrected lookup is exact-case and reads own entries only: a hit exactly for NPM, PNPM and YARN, and the hit is the table's entry |
| SrcAction.TableEntries | src/action.ts:7-23 | the three entries, with "yarn run" as YARN's packager prefix; lower-case names miss; where both tables hit they differ only in that prefix |
| SrcAction.LookupAsWritten | src/action.ts:37-42 | as written, an inherited property name yields a value that is not undefined |
| SrcAction.ElectronBuilderField | src/action.ts:37-42 | `commands.electronBuilder` is a string only for an own table entry |
| SrcAction.InheritedNamePassesCheck | src/action.ts:37-42 | as written, "toString" passes the undefined check, and the electron-builder tokens then hold an undefined token that run cannot take |
| SrcAction.InheritedNameRejected | src/action.ts:37-42 | with an own-entry lookup every inherited name is reported as unsupported before any effect |
| SrcAction.InheritedKeysAreNoManagers | src/action.ts:11-22 | no inherited property name is one of the table's names |
| SrcAction.Archs | src/action.ts:58-92 | the architectures are the linux or windows list of the build, empty when it gives none, and always empty for mac |
| SrcAction.ArchsIgnoreMac | src/action.ts:58-92 | the architectures are those src/builder.ts collects, except that mac collects none |
| SrcAction.Plan | src/action.ts:25-131 | builder throws only "not supported" for the package manager or "package.json not found", and a build that throws has no effect |
| SrcAction.RejectsBeforeAnyEffect | src/action.ts:37-56 | both checks come before the script run and every environment write; a rejected build has no effect |
| SrcAction.PlanCommands | src/action.ts:54-130 | the commands of a successful build are the script run followed by the electron-builder runs |
| SrcAction.FanOutLines | src/action.ts:100-130 | the runs of the fan-out, one command line per architecture, or one without |
| SrcAction.CommandSequence | src/action.ts:54-130 | the build script first, if named, then one run per linux or windows architecture in order, or exactly one |
| SrcAction.MacRunsOnce | src/action.ts:71-130 | a mac build runs exactly one electron-builder command, without an architecture token, whatever architectures are passed |
| SrcAction.EnvironmentAfterBuild | src/action.ts:63-94 | GH_TOKEN holds the token; mac binds CSC_*, windows WIN_CSC_*, each when given; linux none; nothing else changes |
| SrcAction.CollectArchsAndSign | src/action.ts:58-92 | the switch collects the linux or windows architectures (none for mac) and performs exactly the signing writes |
| SrcAction.Builder | src/action.ts:25-131 | builder throws Plan's error, appends exactly Plan's effects and leaves the environment as those writes make it |
| SrcAction.BuilderPlan | src/action.ts:54-130 | the steps of a successful builder add up to Plan |
| SrcAction.EntryChecks | src/action.ts:135-155 | an unset token input throws before any effect; the build releases exactly when the release input is "true" |
| SrcAction.EntryPlan | src/action.ts:133-167 | main reports a missing token exactly when the token input is unset, and then has no effect |
| SrcAction.Entry | src/action.ts:133-167 | main reports EntryPlan's error and causes exactly its effects |
| DistAction.TokenEffects | dist/action.js:64 | writing the token causes only environment writes |
| DistAction.SigningEffects | dist/action.js:76-90 | the signing switch causes only environment writes |
| DistAction.TokenWrittenFirst | dist/action.js:64-72 | GH_TOKEN is the first effect, even of a rejected build; the build fails exactly on a lookup miss or a missing package.json, and then binds GH_TOKEN and nothing else |
| DistAction.Plan | dist/action.js:53-101 | builder throws only "not supported" for the package manager or "package.json not found", and a build that throws has written GH_TOKEN and nothing else |
| DistAction.InheritedNameRejected | dist/action.js:65-68 | with an own-entry lookup every inherited name is reported as unsupported, after the GH_TOKEN write and before anything else |
| DistAction.SuccessfulEffects | dist/action.js:64-100 | the commands of a successful build are the script run and one electron-builder run, between the token write and the signing writes |
| DistAction.PlanOnSuccess | dist/action.js:64-100 | the effects of a build that passes both checks: token, script, signing, one run |
| DistAction.SingleRun | dist/action.js:73-100 | the build script, if named, then exactly one electron-builder command, with no architecture token and the publish flag only when releasing |
| DistAction.SigningEnvironment | dist/action.js:76-90 | mac and windows both bind CSC_LINK and CSC_KEY_PASSWORD, each when given; linux binds none |
| DistAction.EnvironmentAfterBuild | dist/action.js:64-90 | after a successful build GH_TOKEN holds the token and the platform's given credentials are bound; nothing else changes |
| DistAction.Sign | dist/action.js:76-90 | the switch performs exactly the signing writes |
| DistAction.Builder | dist/action.js:53-101 | builder throws Plan's error, appends exactly Plan's effects and leaves the environment as those writes make it |
| DistAction.BuilderPlan | dist/action.js:64-100 | the steps of a successful builder add up to Plan |
| DistAction.EntryChecks | dist/action.js:102-129 | an unset token input throws before any effect; a host other than darwin and win32 is built as linux, which binds no credential |
| DistAction.EntryPlan | dist/action.js:102-129 | main reports a missing token exactly when the token input is unset, and then has no effect |
| DistAction.Entry | dist/action.js:102-129 | main reports EntryPlan's error and causes exactly its effects |

## Left out

- `execSync`, its `stdio: 'inherit'` and `encoding` options, and exit codes: running a command only appends `(command line, cwd)` to the trace. A failing command does not stop the build in the model.
- `existsSync(join(packageRoot, 'package.json'))`: the filesystem is the set of directories holding a `package.json`. `join`'s normalisation is not modelled (`packageRoot` is compared as given).
- The `try`/`catch`, `console.error` and `process.exit(1)` of the mains of `src/action.ts` and `dist/action.js`. The main of `dist/index.js` has none, and its error escapes uncaught. Either way, the thrown error is the `error` of the outcome.
- The message of each thrown error is `Types.Message`. No lemma is stated about it.
- `src/index.ts` is input wiring only and is not modelled. It differs from `main` in `dist/index.js`: it uses the `getInput` of `src/utils.ts`, so an empty token passes; its `getPlatform` never rejects a host; it reads `build_script_name`, `release` and the mac and windows certificate inputs, and no `config_path` or `mac_arch`.
- `src/types.ts` and `esbuild.ts` have no behaviour. The former gives the shapes of `Types`.
- `getMultiLineInput` is imported by `src/action.ts` but not exported by `src/utils.ts`. The `main` of `src/action.ts` uses the reader of `dist/index.js` in its place.
- Retrying a build: the code has no retry loop, so none is modelled.
- Unicode: `toUpperCase` and `trim` are modelled on ASCII letters and ASCII whitespace only.
- `setEnv`'s `value.toString()` for numbers, bigints and booleans: every value the builders pass is a string, so values are strings.
- A missing `linux`, `mac` or `windows` object, which would make `builder` throw a TypeError, is not modelled. The parameters always carry the three entries.
- The signing variables of `dist/index.js`: its builder writes only `GH_TOKEN`, and the model follows that code.
- SrcBuilder.Builder: src/builder.ts:102 passes `null` as the publish flag when not releasing, and the model passes `""`. This is the corrected program of the first finding. As written, such a build runs the script and does the environment writes, then its first electron-builder `run` throws a TypeError. `SrcBuilder.Plan` and every lemma about it describe the corrected builder. `SrcBuilder.NullPublishFlagReachesRun` shows the code as written.
- SrcAction.Lookup: reads own entries of the table only, so it hits exactly NPM, PNPM and YARN. The read at src/action.ts:37-38 as written also hits the twelve property names every object inherits. `SrcAction.LookupAsWritten` models that read.
- SrcAction.Plan: uses the own-entry `SrcAction.Lookup`, so an inherited name is reported as unsupported. As written it passes the check and `run` throws a TypeError later. `SrcAction.LookupAsWritten` models the read as written.
- DistAction.Plan: uses the same own-entry `SrcAction.Lookup`, so an inherited name is reported as unsupported after the GH_TOKEN write. As written, dist/action.js:65-68 lets it pass and `run` throws a TypeError later. `SrcAction.LookupAsWritten` models the read as written.
- SrcBuilder.Plan: describes the corrected builder of the first finding, as stated for `SrcBuilder.Builder`.
- SrcAction.Builder: uses the own-entry lookup of the second finding. As written, an inherited name such as `toString` passes the check, and the build throws a TypeError in the first `run` it reaches. That is the script run when a script is named, and otherwise the electron-builder run after the signing and GH_TOKEN writes. `SrcAction.Plan` and its lemmas describe the corrected builder.
- DistAction.Builder: uses the same own-entry lookup, as the third finding says. As written, `toString` passes the check at dist/action.js:65-68 after the GH_TOKEN write. The build then throws a TypeError in the first `run` it reaches, unless package.json is missing. `DistAction.Plan` reports `UnsupportedManager` instead.
- DistAction.TokenWrittenFirst: states the corrected lookup, so an inherited name counts as a lookup miss there.
- Utils.Run: models a null token reaching `str.length` as a precondition of run, not as a thrown TypeError.

## Findings

| source | as written | input that shows it | evidently intended | confidence | as-written member | corrected member |
|---|---|---|---|---|---|---|
| src/builder.ts:102 | `publishFlag` is `null` when `release` is false, and `run`'s filter (src/utils.ts:39) reads `str.length` of every token | `release` unset or false, the default | no publish token when not releasing, as in src/action.ts:98 | not executed | SrcBuilder.NullPublishFlagReachesRun | SrcBuilder.PackagingTokens |
| src/action.ts:37-42 | `packageManagerCommands[packageManager]` with an exact name is not `undefined` for property names every object inherits | `package_manager` input `toString` | such a name is reported as not supported | not executed | SrcAction.InheritedNamePassesCheck | SrcAction.InheritedNameRejected |
| dist/action.js:65-68 | the same exact-name lookup on the same table, after GH_TOKEN is written | `package_manager` input `toString` | such a name is reported as not supported after the GH_TOKEN write | not executed | SrcAction.InheritedNamePassesCheck | DistAction.InheritedNameRejected |
