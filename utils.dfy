/** src/utils.ts: host platform detection, reading action inputs, writing
    environment variables, and running a command line. */
module Utils {
  import opened Runtime
  import opened Types
  import Ascii

  /** getPlatform: darwin is mac, win32 is windows, and every other host
      (linux, freebsd, aix, ...) falls back to linux. */
  function GetPlatform(host: string): (p: Platform)
    ensures p == Mac <==> host == "darwin"
    ensures p == Windows <==> host == "win32"
    ensures p == Linux <==> host != "darwin" && host != "win32"
  {
    match host
    case "darwin" => Mac
    case "win32" => Windows
    case _ => Linux
  }

  /** The environment variable through which the runner passes input `name`. */
  function InputKey(name: string): string
  {
    "INPUT_" + Ascii.Upper(name)
  }

  /** The variable behind the github_token input. */
  lemma TokenKey()
    ensures InputKey("github_token") == "INPUT_GITHUB_TOKEN"
  {
    assert Ascii.Upper("github_token") == "GITHUB_TOKEN";
  }

  /** The variable behind the release input. */
  lemma ReleaseKey()
    ensures InputKey("release") == "INPUT_RELEASE"
  {
    assert Ascii.Upper("release") == "RELEASE";
  }

  /** getInput: the raw value of INPUT_<NAME>, undefined when unset. An empty
      value is returned as it is. */
  function GetInput(env: map<string, string>, name: string): (r: Option<string>)
    ensures r.Some? <==> "INPUT_" + Ascii.Upper(name) in env
    ensures r.Some? ==> r.value == env["INPUT_" + Ascii.Upper(name)]
  {
    Get(env, InputKey(name))
  }

  /** Input names are case-insensitive: a name and its upper-case form read
      the same variable. */
  lemma InputNameIgnoresCase(env: map<string, string>, name: string)
    ensures GetInput(env, name) == GetInput(env, Ascii.Upper(name))
  {
    Ascii.UpperIdempotent(name);
  }

  /** The effects of setEnv(name, value): nothing for null or undefined,
      otherwise one write under the upper-cased name. */
  function SetEnvEffects(name: string, value: Option<string>): (r: seq<Effect>)
    ensures AllWrite(r)
  {
    if value.None? then [] else [Write(Ascii.Upper(name), value.value)]
  }

  /** The environment after setEnv(name, value). */
  lemma ReplaySetEnv(env: map<string, string>, name: string, value: Option<string>)
    ensures Replay(env, SetEnvEffects(name, value))
      == if value.Some? then env[Ascii.Upper(name) := value.value] else env
  {
  }

  /** setEnv: null or undefined leaves the environment alone; any string,
      the empty one included, is stored under the upper-cased name and no
      other variable changes. */
  method SetEnv(p: Process, name: string, value: Option<string>)
    modifies p
    ensures value.None? ==> p.env == old(p.env)
    ensures value.Some? ==> p.env == old(p.env)[Ascii.Upper(name) := value.value]
    ensures p.env == Replay(old(p.env), SetEnvEffects(name, value))
    ensures p.trace == old(p.trace) + SetEnvEffects(name, value)
  {
    if value.None? {
      return;
    }
    p.Assign(Ascii.Upper(name), value.value);
  }

  /** The argument of run: an array of tokens or a ready command line. A
      token is None where the caller passed null or undefined. */
  datatype Command = Argv(tokens: seq<Option<string>>) | Line(text: string)

  /** The tokens that make it onto the command line: the present, non-empty
      ones, in their original order. */
  function Tokens(argv: seq<Option<string>>): (r: seq<string>)
    ensures |r| <= |argv|
  {
    if argv == [] then []
    else (if argv[0].Some? && argv[0].value != "" then [argv[0].value] else []) + Tokens(argv[1..])
  }

  /** No token that survives the filter is empty. */
  lemma {:induction false} TokensNonEmpty(argv: seq<Option<string>>)
    ensures forall k | 0 <= k < |Tokens(argv)| :: Tokens(argv)[k] != ""
  {
    if argv != [] {
      TokensNonEmpty(argv[1..]);
    }
  }

  /** Strings as tokens. */
  function Lift(ts: seq<string>): (r: seq<Option<string>>)
    ensures |r| == |ts|
    ensures forall k | 0 <= k < |ts| :: r[k] == Some(ts[k])
  {
    seq(|ts|, k requires 0 <= k < |ts| => Some(ts[k]))
  }

  /** Every token is a string: filter's callback reads `str.length`, which
      throws a TypeError on null or undefined. */
  predicate AllStrings(argv: seq<Option<string>>)
  {
    forall k | 0 <= k < |argv| :: argv[k].Some?
  }

  /** No token holds a space. */
  predicate SpaceFree(ts: seq<string>)
  {
    forall k | 0 <= k < |ts| :: ' ' !in ts[k]
  }

  /** The command line run hands to execSync: an array is filtered and
      joined with single spaces, a string is passed through. */
  function CommandString(command: Command): string
  {
    match command
    case Argv(tokens) => Ascii.Join(Tokens(tokens), " ")
    case Line(text) => text
  }

  /** A string command reaches the shell as it is. For an array with some
      token left after the filter, the space-separated words of the command
      line are the words of each kept token, in order, so a token such as
      "npm run" contributes its own two words; when no token holds a space,
      the words are exactly the kept tokens. */
  lemma CommandWords(command: Command)
    ensures command.Line? ==> CommandString(command) == command.text
    ensures command.Argv? && Tokens(command.tokens) != []
      ==> Ascii.Split(CommandString(command), ' ') == Ascii.SplitEach(Tokens(command.tokens), ' ')
    ensures command.Argv? && Tokens(command.tokens) != [] && SpaceFree(Tokens(command.tokens))
      ==> Ascii.Split(CommandString(command), ' ') == Tokens(command.tokens)
  {
    if command.Argv? && Tokens(command.tokens) != [] {
      Ascii.SplitJoinEach(Tokens(command.tokens), ' ');
      if SpaceFree(Tokens(command.tokens)) {
        Ascii.SplitJoin(Tokens(command.tokens), ' ');
      }
    }
  }

  /** run: one synchronous command in `cwd`. The array form requires every
      token to be a string. */
  method Run(p: Process, command: Command, cwd: string)
    requires command.Argv? ==> AllStrings(command.tokens)
    modifies p
    ensures p.env == old(p.env)
    ensures p.trace == old(p.trace) + [Exec(CommandString(command), cwd)]
  {
    var commandStr := match command
      case Argv(tokens) => Ascii.Join(Tokens(tokens), " ")
      case Line(text) => text;
    p.Shell(commandStr, cwd);
  }

  lemma {:induction false} TokensAppend(a: seq<Option<string>>, b: seq<Option<string>>)
    ensures Tokens(a + b) == Tokens(a) + Tokens(b)
  {
    if a == [] {
      assert a + b == b;
    } else {
      assert (a + b)[0] == a[0] && (a + b)[1..] == a[1..] + b;
      TokensAppend(a[1..], b);
      var h := if a[0].Some? && a[0].value != "" then [a[0].value] else [];
      assert Tokens(a + b) == h + (Tokens(a[1..]) + Tokens(b));
      assert h + (Tokens(a[1..]) + Tokens(b)) == (h + Tokens(a[1..])) + Tokens(b);
    }
  }

  /** A string survives the filter exactly when it is non-empty and was
      passed as a token. */
  lemma {:induction false} TokensMembership(argv: seq<Option<string>>, t: string)
    ensures t in Tokens(argv) <==> t != "" && Some(t) in argv
  {
    if argv != [] {
      TokensMembership(argv[1..], t);
      assert argv == [argv[0]] + argv[1..];
    }
  }

  /** Tokens that are all non-empty strings pass the filter unchanged. */
  lemma {:induction false} TokensKeepsNonEmpty(ts: seq<string>)
    requires forall k | 0 <= k < |ts| :: ts[k] != ""
    ensures Tokens(Lift(ts)) == ts
  {
    if ts != [] {
      TokensKeepsNonEmpty(ts[1..]);
      assert Lift(ts)[1..] == Lift(ts[1..]);
      assert [ts[0]] + ts[1..] == ts;
    }
  }

  lemma TokensSingle(x: Option<string>)
    ensures Tokens([x]) == if x.Some? && x.value != "" then [x.value] else []
  {
    assert [x][1..] == [];
  }

  /** Filtering twice is filtering once. */
  lemma TokensIdempotent(argv: seq<Option<string>>)
    ensures Tokens(Lift(Tokens(argv))) == Tokens(argv)
  {
    TokensNonEmpty(argv);
    TokensKeepsNonEmpty(Tokens(argv));
  }
}
