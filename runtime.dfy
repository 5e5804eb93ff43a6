/** The parts of the Node.js runtime the action touches: JavaScript's
    undefined/null, the process environment, the host platform string, the
    file-system question "does <dir>/package.json exist?", and the commands
    handed to the shell. */
module Runtime {

  /** A JavaScript value that may be undefined or null (both are None). */
  datatype Option<+T> = None | Some(value: T) {
    /** The value, or the default that a destructuring default supplies. */
    function GetOr(default: T): T {
      match this
      case Some(v) => v
      case None => default
    }
  }

  /** The property names every object literal inherits from
      Object.prototype: reading one of them from a table written as an
      object literal yields a function (or, for __proto__, Object.prototype
      itself), never undefined. */
  const InheritedKeys: set<string> := {
    "constructor", "hasOwnProperty", "isPrototypeOf", "propertyIsEnumerable",
    "toLocaleString", "toString", "valueOf", "__proto__",
    "__defineGetter__", "__defineSetter__", "__lookupGetter__", "__lookupSetter__"}

  /** One observable side effect of the action, in the order it happens:
      an assignment to process.env, or a synchronous shell command run in a
      working directory. */
  datatype Effect =
    | Write(name: string, value: string)
    | Exec(command: string, cwd: string)

  /** The environment variable `name`, if set. */
  function Get(env: map<string, string>, name: string): (r: Option<string>)
    ensures r.Some? <==> name in env
    ensures r.Some? ==> env[name] == r.value
  {
    if name in env then Some(env[name]) else None
  }

  /** The environment after the effects have happened, in order. */
  function Replay(env: map<string, string>, effects: seq<Effect>): map<string, string>
    decreases |effects|
  {
    if effects == [] then env else Replay(Apply(env, effects[0]), effects[1..])
  }

  /** The environment after one effect. */
  function Apply(env: map<string, string>, effect: Effect): map<string, string>
  {
    match effect
    case Write(name, value) => env[name := value]
    case Exec(_, _) => env
  }

  /** The shell commands among the effects, in order. */
  function Commands(effects: seq<Effect>): (r: seq<Effect>)
    ensures |r| <= |effects|
    ensures forall k | 0 <= k < |r| :: r[k].Exec?
  {
    if effects == [] then []
    else (if effects[0].Exec? then [effects[0]] else []) + Commands(effects[1..])
  }

  predicate AllExec(effects: seq<Effect>)
  {
    forall k | 0 <= k < |effects| :: effects[k].Exec?
  }

  predicate AllWrite(effects: seq<Effect>)
  {
    forall k | 0 <= k < |effects| :: effects[k].Write?
  }

  lemma {:induction false} ReplayAppend(env: map<string, string>, a: seq<Effect>, b: seq<Effect>)
    ensures Replay(env, a + b) == Replay(Replay(env, a), b)
    decreases |a|
  {
    if a == [] {
      assert a + b == b;
    } else {
      assert (a + b)[0] == a[0] && (a + b)[1..] == a[1..] + b;
      ReplayAppend(Apply(env, a[0]), a[1..], b);
    }
  }

  lemma {:induction false} CommandsAppend(a: seq<Effect>, b: seq<Effect>)
    ensures Commands(a + b) == Commands(a) + Commands(b)
  {
    if a == [] {
      assert a + b == b;
    } else {
      assert (a + b)[0] == a[0] && (a + b)[1..] == a[1..] + b;
      CommandsAppend(a[1..], b);
    }
  }

  /** Shell commands leave the environment alone and are all kept by Commands. */
  lemma {:induction false} OnlyCommands(env: map<string, string>, effects: seq<Effect>)
    requires AllExec(effects)
    ensures Commands(effects) == effects
    ensures Replay(env, effects) == env
  {
    if effects != [] {
      OnlyCommands(env, effects[1..]);
    }
  }

  /** Environment writes run no command. */
  lemma {:induction false} OnlyWrites(effects: seq<Effect>)
    requires AllWrite(effects)
    ensures Commands(effects) == []
  {
    if effects != [] {
      OnlyWrites(effects[1..]);
    }
  }

  /** A builder's effects are a run of commands, a run of environment
      writes and another run of commands: only the commands are shell
      commands and only the writes change the environment. */
  lemma CommandsAroundWrites(env: map<string, string>, before: seq<Effect>, writes: seq<Effect>, after: seq<Effect>)
    requires AllExec(before) && AllWrite(writes) && AllExec(after)
    ensures Commands(before + writes + after) == before + after
    ensures Replay(env, before + writes + after) == Replay(env, writes)
  {
    CommandsAround(before, writes, after);
    ReplayAround(env, before, writes, after);
  }

  lemma CommandsAround(before: seq<Effect>, writes: seq<Effect>, after: seq<Effect>)
    requires AllExec(before) && AllWrite(writes) && AllExec(after)
    ensures Commands(before + writes + after) == before + after
  {
    assert Commands(before + writes) == before by {
      CommandsAppend(before, writes);
      OnlyCommands(map[], before);
      OnlyWrites(writes);
      assert before + [] == before;
    }
    CommandsAppend(before + writes, after);
    OnlyCommands(map[], after);
  }

  lemma ReplayAround(env: map<string, string>, before: seq<Effect>, writes: seq<Effect>, after: seq<Effect>)
    requires AllExec(before) && AllExec(after)
    ensures Replay(env, before + writes + after) == Replay(env, writes)
  {
    ReplayAppend(env, before + writes, after);
    ReplayAppend(env, before, writes);
    OnlyCommands(env, before);
    OnlyCommands(Replay(env, writes), after);
  }

  /** A run of commands, two runs of writes, another run of commands, as
      the steps of a builder append them one after the other. */
  lemma Assemble(env0: map<string, string>, trace0: seq<Effect>, before: seq<Effect>, w1: seq<Effect>,
                 w2: seq<Effect>, after: seq<Effect>, env: map<string, string>, trace: seq<Effect>)
    requires AllExec(before) && AllExec(after)
    requires trace == trace0 + before + w1 + w2 + after
    requires env == Replay(Replay(env0, w1), w2)
    ensures trace == trace0 + (before + (w1 + w2) + after)
    ensures env == Replay(env0, before + (w1 + w2) + after)
  {
    Regroup(trace0, before, w1, w2, after);
    ReplayAppend(env0, w1, w2);
    ReplayAround(env0, before, w1 + w2, after);
  }

  /** Writes, commands, writes, commands: the commands in order, and the
      environment the two groups of writes leave. */
  lemma WritesAroundCommands(env: map<string, string>, w1: seq<Effect>, c1: seq<Effect>,
                             w2: seq<Effect>, c2: seq<Effect>)
    requires AllWrite(w1) && AllExec(c1) && AllWrite(w2) && AllExec(c2)
    ensures Commands(w1 + c1 + w2 + c2) == c1 + c2
    ensures Replay(env, w1 + c1 + w2 + c2) == Replay(Replay(env, w1), w2)
  {
    assert w1 + c1 + w2 + c2 == w1 + (c1 + w2 + c2);
    assert Commands(w1 + (c1 + w2 + c2)) == c1 + c2 by {
      CommandsAppend(w1, c1 + w2 + c2);
      OnlyWrites(w1);
      CommandsAround(c1, w2, c2);
      assert [] + (c1 + c2) == c1 + c2;
    }
    assert Replay(env, w1 + (c1 + w2 + c2)) == Replay(Replay(env, w1), w2) by {
      ReplayAppend(env, w1, c1 + w2 + c2);
      ReplayAround(Replay(env, w1), c1, w2, c2);
    }
  }

  /** Regrouping the pieces of a trace. */
  lemma Regroup3<T>(t: seq<T>, a: seq<T>, b: seq<T>, c: seq<T>)
    ensures t + a + b + c == t + (a + b + c)
  {
  }

  /** A command that follows a prefix sits at its own index shifted by the
      length of the prefix. */
  lemma RunAfter(cmds: seq<Effect>, prefix: seq<Effect>, runs: seq<Effect>, offset: int, i: int, e: Effect)
    requires cmds == prefix + runs && |prefix| == offset && 0 <= i < |runs| && runs[i] == e
    ensures cmds[offset + i] == e
  {
  }

  /** A non-empty sequence is its front followed by its last element. */
  lemma InitLast<T>(s: seq<T>)
    requires |s| > 0
    ensures s[..|s| - 1] + [s[|s| - 1]] == s
  {
  }

  /** Regrouping the pieces of a trace. */
  lemma Regroup4<T>(t: seq<T>, a: seq<T>, b: seq<T>, c: seq<T>, d: seq<T>)
    ensures t + a + b + c + d == t + (a + b + c + d)
  {
  }

  /** Regrouping the pieces of a trace. */
  lemma Regroup<T>(t: seq<T>, a: seq<T>, b: seq<T>, c: seq<T>, d: seq<T>)
    ensures t + a + b + c + d == t + (a + (b + c) + d)
  {
  }

  /** The process the action runs in. The environment is the state the
      action changes; `trace` records every effect in order; the host
      platform string and the set of directories holding a package.json are
      fixed for the run. */
  class Process {
    var env: map<string, string>
    ghost var trace: seq<Effect>
    const platform: string
    const manifestDirs: set<string>

    constructor (env: map<string, string>, platform: string, manifestDirs: set<string>)
      ensures this.env == env && trace == []
      ensures this.platform == platform && this.manifestDirs == manifestDirs
    {
      this.env := env;
      this.trace := [];
      this.platform := platform;
      this.manifestDirs := manifestDirs;
    }

    /** existsSync(join(dir, "package.json")). */
    predicate HasManifest(dir: string)
    {
      dir in manifestDirs
    }

    /** process.env[name] = value. */
    method Assign(name: string, value: string)
      modifies this
      ensures env == old(env)[name := value]
      ensures trace == old(trace) + [Write(name, value)]
    {
      env := env[name := value];
      trace := trace + [Write(name, value)];
    }

    /** execSync(command, { cwd }): the command runs with the process's
        streams; its exit status is not modelled. */
    method Shell(command: string, cwd: string)
      modifies this
      ensures env == old(env)
      ensures trace == old(trace) + [Exec(command, cwd)]
    {
      trace := trace + [Exec(command, cwd)];
    }
  }
}
