/** `run`: resolving the non-flag arguments against the command tree, and
    choosing between the resolved command's handler and its help. */
module Dispatcher {
  import opened Errors
  import opened Commands
  import opened Flags

  /** What the flag parser hands back: the leftover non-flag arguments
      (`flag.Args()`), whether parsing failed, and the values it set. */
  datatype Parsed = Parsed(args: seq<string>, parseError: bool, given: map<string, FlagValue>)

  /** The end of a run's dispatch: help rendered for a path (`PrintHelp`,
      which always returns ERR_HELP), a handler invoked, or a first-run setup
      step that failed before dispatch. */
  datatype Outcome = ShowHelp(path: seq<Command>) | Invoke(handler: Handler, cli: Cli) | SetupFailed(err: CliError)
  {
    /** The error `run` returns, given what the handler returns when it is
        invoked (`handled`, unused otherwise): help and a failed setup step
        are errors of their own, an invoked handler's result is passed on. */
    function Returned(handled: Option<CliError>): (e: Option<CliError>)
      ensures ShowHelp? ==> e == Some(ERR_HELP)
      ensures SetupFailed? ==> e == Some(err)
      ensures Invoke? ==> e == handled
    {
      match this
      case ShowHelp(_) => Some(ERR_HELP)
      case SetupFailed(e) => Some(e)
      case Invoke(_, _) => handled
    }
  }

  /** The first command in `cs` called `name`, as the inner loop finds it. */
  function FindChild(cs: seq<Command>, name: string): Option<Command> {
    if |cs| == 0 then None
    else if cs[0].name == name then Some(cs[0])
    else FindChild(cs[1..], name)
  }

  /** The search finds the first command with the name, and finds none
      exactly when no command has it. */
  lemma {:induction false} FindChildFirst(cs: seq<Command>, name: string)
    ensures FindChild(cs, name).None? <==> forall k :: 0 <= k < |cs| ==> cs[k].name != name
    ensures FindChild(cs, name).Some? ==>
      exists k :: 0 <= k < |cs| && cs[k] == FindChild(cs, name).value && cs[k].name == name &&
                  forall j :: 0 <= j < k ==> cs[j].name != name
  {
    if |cs| > 0 && cs[0].name != name {
      var tail := cs[1..];
      FindChildFirst(tail, name);
      assert forall k :: 0 <= k < |tail| ==> tail[k] == cs[k + 1];
      if FindChild(tail, name).Some? {
        var k :| 0 <= k < |tail| && tail[k] == FindChild(tail, name).value && tail[k].name == name &&
                 forall j :: 0 <= j < k ==> tail[j].name != name;
        assert cs[k + 1] == FindChild(cs, name).value;
        assert forall j :: 0 <= j < k + 1 ==> cs[j].name != name by {
          forall j | 0 <= j < k + 1 ensures cs[j].name != name {
            if j > 0 { assert cs[j] == tail[j - 1]; }
          }
        }
      } else {
        forall k | 0 <= k < |cs| ensures cs[k].name != name {
          if k > 0 { assert cs[k] == tail[k - 1]; }
        }
      }
    }
  }

  /** The walk below `node`: the commands descended into and the positionals.
      At a leaf the remaining arguments are the positionals; at an inner node
      a matching child is descended into, and a mismatch stops the walk with
      no positionals. */
  function Walk(node: Command, args: seq<string>): (r: (seq<Command>, seq<string>))
    decreases |args|
    ensures |r.0| <= |args|
  {
    if |args| == 0 then ([], [])
    else if node.IsLeaf() then ([], args)
    else match FindChild(node.children.Elems(), args[0])
      case None => ([], [])
      case Some(c) =>
        var (path, positionals) := Walk(c, args[1..]);
        ([c] + path, positionals)
  }

  /** The resolved command path, starting at the root, and the positionals. */
  function Resolve(root: Command, args: seq<string>): (r: (seq<Command>, seq<string>))
    ensures 1 <= |r.0| <= |args| + 1 && r.0[0] == root
  {
    var (path, positionals) := Walk(root, args);
    ([root] + path, positionals)
  }

  /** Each command of the path after the first is the first child of its
      predecessor named by the next argument, consumed in order. */
  ghost predicate Chained(args: seq<string>, path: seq<Command>)
    requires |path| <= |args| + 1
  {
    forall j :: 0 <= j < |path| - 1 ==> FindChild(path[j].children.Elems(), args[j]) == Some(path[j + 1])
  }

  /** Where a walk may stop, with `rest` the unconsumed arguments: at a leaf,
      taking them all as positionals, or at an inner node with no positionals
      once the arguments run out or name no child. */
  ghost predicate Stopped(last: Command, rest: seq<string>, positionals: seq<string>) {
    if last.IsLeaf() then positionals == rest
    else positionals == [] && (|rest| > 0 ==> FindChild(last.children.Elems(), rest[0]).None?)
  }

  /** What a resolution is, independently of how the walk finds it: a chained
      path from the root that stops where a walk may stop. */
  ghost predicate IsResolution(root: Command, args: seq<string>, path: seq<Command>, positionals: seq<string>) {
    && 1 <= |path| <= |args| + 1
    && path[0] == root
    && Chained(args, path)
    && Stopped(path[|path| - 1], args[|path| - 1..], positionals)
  }

  /** A chain from a child, after the step to it, is a chain. */
  lemma ChainedExtend(node: Command, args: seq<string>, rest: seq<Command>)
    requires 1 <= |rest| <= |args|
    requires FindChild(node.children.Elems(), args[0]) == Some(rest[0])
    requires Chained(args[1..], rest)
    ensures Chained(args, [node] + rest)
  {
    var full := [node] + rest;
    forall j | 0 <= j < |full| - 1
      ensures FindChild(full[j].children.Elems(), args[j]) == Some(full[j + 1])
    {
      if j > 0 {
        assert full[j] == rest[j - 1] && full[j + 1] == rest[j] && args[j] == args[1..][j - 1];
      }
    }
  }

  /** The tail of a chain is a chain over the remaining arguments. */
  lemma ChainedTail(node: Command, args: seq<string>, rest: seq<Command>)
    requires 1 <= |rest| <= |args|
    requires Chained(args, [node] + rest)
    ensures Chained(args[1..], rest)
  {
    var full := [node] + rest;
    forall j | 0 <= j < |rest| - 1
      ensures FindChild(rest[j].children.Elems(), args[1..][j]) == Some(rest[j + 1])
    {
      assert rest[j] == full[j + 1] && rest[j + 1] == full[j + 2] && args[1..][j] == args[j + 1];
    }
  }

  /** A resolution that descends into a child is the step to that child
      followed by a resolution from the child over the remaining arguments. */
  lemma ResolutionCons(node: Command, args: seq<string>, rest: seq<Command>, positionals: seq<string>)
    requires 1 <= |rest| <= |args|
    requires FindChild(node.children.Elems(), args[0]) == Some(rest[0])
    ensures IsResolution(node, args, [node] + rest, positionals) <==>
            IsResolution(rest[0], args[1..], rest, positionals)
  {
    var full := [node] + rest;
    assert full[0] == node && full[|full| - 1] == rest[|rest| - 1];
    assert args[|full| - 1..] == args[1..][|rest| - 1..];
    if Chained(args, full) {
      ChainedTail(node, args, rest);
    }
    if Chained(args[1..], rest) {
      ChainedExtend(node, args, rest);
    }
  }

  /** A walk that stops at once is a resolution of length one. */
  lemma StopIsResolution(node: Command, args: seq<string>)
    requires |args| == 0 || node.IsLeaf() || FindChild(node.children.Elems(), args[0]).None?
    ensures Walk(node, args) == ([], if node.IsLeaf() then args else [])
    ensures IsResolution(node, args, [node], Walk(node, args).1)
  {
    assert args[0..] == args;
    assert Chained(args, [node]);
  }

  lemma {:induction false} WalkIsResolution(node: Command, args: seq<string>)
    decreases |args|
    ensures IsResolution(node, args, [node] + Walk(node, args).0, Walk(node, args).1)
  {
    if |args| == 0 || node.IsLeaf() || FindChild(node.children.Elems(), args[0]).None? {
      StopIsResolution(node, args);
      assert [node] + [] == [node];
    } else {
      var c := FindChild(node.children.Elems(), args[0]).value;
      WalkIsResolution(c, args[1..]);
      var (sub, positionals) := Walk(c, args[1..]);
      assert Walk(node, args) == ([c] + sub, positionals);
      ResolutionCons(node, args, [c] + sub, positionals);
    }
  }

  lemma {:induction false} ResolutionIsWalk(node: Command, args: seq<string>, path: seq<Command>, positionals: seq<string>)
    requires IsResolution(node, args, path, positionals)
    decreases |args|
    ensures Resolve(node, args) == (path, positionals)
  {
    if |path| == 1 {
      assert path == [node] + [];
      assert args[0..] == args;
      StopIsResolution(node, args);
    } else {
      var rest := path[1..];
      assert path == [node] + rest;
      assert FindChild(node.children.Elems(), args[0]) == Some(rest[0]);
      ResolutionCons(node, args, rest, positionals);
      ResolutionIsWalk(rest[0], args[1..], rest, positionals);
    }
  }

  /** The walk's result is a resolution, and the only one. */
  lemma ResolveCharacterised(root: Command, args: seq<string>, path: seq<Command>, positionals: seq<string>)
    ensures Resolve(root, args) == (path, positionals) <==> IsResolution(root, args, path, positionals)
  {
    WalkIsResolution(root, args);
    if IsResolution(root, args, path, positionals) {
      ResolutionIsWalk(root, args, path, positionals);
    }
  }

  /** The walk from `node` over the arguments from index i on, one step. */
  lemma WalkStep(node: Command, args: seq<string>, i: nat)
    requires i < |args|
    ensures node.IsLeaf() ==> Walk(node, args[i..]) == ([], args[i..])
    ensures !node.IsLeaf() && FindChild(node.children.Elems(), args[i]).None? ==>
      Walk(node, args[i..]) == ([], [])
    ensures !node.IsLeaf() && FindChild(node.children.Elems(), args[i]).Some? ==>
      var c := FindChild(node.children.Elems(), args[i]).value;
      Walk(node, args[i..]) == ([c] + Walk(c, args[i + 1..]).0, Walk(c, args[i + 1..]).1)
  {
    assert args[i..][0] == args[i] && args[i..][1..] == args[i + 1..];
  }

  /** The inner loop of `run`: the first child called `name`. */
  method SearchChildren(cs: seq<Command>, name: string) returns (found: Option<Command>)
    ensures found == FindChild(cs, name)
  {
    found := None;
    var k := 0;
    while k < |cs|
      invariant 0 <= k <= |cs|
      invariant FindChild(cs, name) == FindChild(cs[k..], name)
    {
      if cs[k].name == name {
        found := Some(cs[k]);
        return;
      }
      assert cs[k..][1..] == cs[k + 1..];
      k := k + 1;
    }
  }

  /** The dispatch loop of `run`: walks the tree over the non-flag arguments,
      appending each matched child to the path, and takes the rest of the
      arguments as positionals when it reaches a leaf. */
  method ResolvePath(root: Command, args: seq<string>) returns (path: seq<Command>, positionals: seq<string>)
    ensures (path, positionals) == Resolve(root, args)
  {
    positionals := [];
    path := [root];
    var i := 0;
    while i < |args|
      invariant 0 <= i <= |args| && |path| == i + 1
      invariant positionals == []
      invariant Resolve(root, args) ==
        (path + Walk(path[|path| - 1], args[i..]).0, Walk(path[|path| - 1], args[i..]).1)
    {
      var last := path[|path| - 1];
      WalkStep(last, args, i);
      if |last.children.Elems()| == 0 {
        positionals := args[i..];
        assert path + [] == path;
        return;
      }
      var cmd := SearchChildren(last.children.Elems(), args[i]);
      if cmd.None? {
        assert path + [] == path;
        return;
      }
      var sub := Walk(cmd.value, args[i + 1..]).0;
      assert path + ([cmd.value] + sub) == (path + [cmd.value]) + sub;
      path := path + [cmd.value];
      i := i + 1;
    }
    assert Walk(path[|path| - 1], args[i..]) == ([], []);
    assert path + [] == path;
  }

  /** The counter loop of `run`: how many of the active command's arguments
      are required. */
  method CountRequired(args: seq<Argument>) returns (required: nat)
    ensures required == RequiredCount(args)
  {
    required := 0;
    for i := 0 to |args|
      invariant required == RequiredCount(args[..i])
    {
      assert args[..i + 1][..i] == args[..i];
      if !args[i].required {
        continue;
      }
      required := required + 1;
    }
    assert args[..|args|] == args;
  }

  /** `configureLog` and the help check read "verbose" and "help" as bools,
      which the source's type assertion requires. */
  predicate ReadableAsBool(registered: map<string, FlagKind>, name: string) {
    name in registered ==> registered[name] == BoolKind
  }

  predicate Dispatchable(root: Command) {
    var registered := Registered(root, map[]);
    ReadableAsBool(registered, "help") && ReadableAsBool(registered, "verbose")
  }

  /** The invocation record `run` builds. */
  function MakeCli(root: Command, p: Parsed): (cli: Cli)
    ensures cli.flags.Keys == Registered(root, map[]).Keys
    ensures (cli.path, cli.arguments) == Resolve(root, p.args)
    ensures Dispatchable(root) ==> Decidable(cli)
  {
    var (path, positionals) := Resolve(root, p.args);
    Cli(FlagValues(Registered(root, map[]), p.given), positionals, path)
  }

  /** What the decision needs of the record: a path, and --help readable as
      a bool. */
  predicate Decidable(cli: Cli) {
    |cli.path| >= 1 && ("help" in cli.flags ==> cli.flags["help"].BoolValue?)
  }

  /** The handler-or-help decision on the record. A parse error yields help;
      a failed setup step returns its error; otherwise the active command's
      handler runs only when --help is absent, the handler exists and enough
      positionals were given. */
  function Decide(cli: Cli, parseError: bool, setup: Option<CliError>): (o: Outcome)
    requires Decidable(cli)
    ensures parseError ==> o == ShowHelp(cli.path)
    ensures o.SetupFailed? <==> !parseError && setup.Some?
    ensures o.ShowHelp? ==> o.path == cli.path
    ensures o.Invoke? ==> o.cli == cli && Some(o.handler) == cli.path[|cli.path| - 1].run
    ensures o.Invoke? ==> !cli.Bool("help") && |cli.arguments| >= RequiredCount(cli.path[|cli.path| - 1].args.Elems())
  {
    var active := cli.path[|cli.path| - 1];
    if parseError then ShowHelp(cli.path)
    else if setup.Some? then SetupFailed(setup.value)
    else if cli.Bool("help") || active.run.None? || |cli.arguments| < RequiredCount(active.args.Elems())
    then ShowHelp(cli.path)
    else Invoke(active.run.value, cli)
  }

  /** `run` from flag registration to the handler-or-help decision. */
  function Dispatch(root: Command, p: Parsed, setup: Option<CliError>): (o: Outcome)
    requires Dispatchable(root)
    ensures o.ShowHelp? ==> o.path == Resolve(root, p.args).0
    ensures o.Invoke? ==> (o.cli.path, o.cli.arguments) == Resolve(root, p.args)
    ensures o.Invoke? ==> o.cli.flags.Keys == Registered(root, map[]).Keys
    ensures o.SetupFailed? <==> !p.parseError && setup.Some?
  {
    Decide(MakeCli(root, p), p.parseError, setup)
  }

  /** `run`: registers the flags of the whole tree, resolves the path, counts
      the required arguments and decides. */
  method Run(root: Command, p: Parsed, setup: Option<CliError>) returns (outcome: Outcome)
    requires Dispatchable(root)
    ensures outcome == Dispatch(root, p, setup)
  {
    var registry := new FlagRegistry();
    registry.Register(root);
    var path, positionals := ResolvePath(root, p.args);
    var cli := Cli(FlagValues(registry.parsed, p.given), positionals, path);
    if p.parseError {
      return ShowHelp(path);
    }
    if setup.Some? {
      return SetupFailed(setup.value);
    }
    var active := path[|path| - 1];
    var required := CountRequired(active.args.Elems());
    if cli.Bool("help") || active.run.None? || |cli.arguments| < required {
      outcome := ShowHelp(path);
    } else {
      outcome := Invoke(active.run.value, cli);
    }
  }

  /** The help decision: the handler runs exactly when parsing succeeded, setup
      succeeded, --help is off, the resolved command has a handler and it got
      at least as many positionals as it has required arguments. Every other
      case without a setup failure renders help for the resolved path. */
  lemma HelpDecision(root: Command, p: Parsed, setup: Option<CliError>)
    requires Dispatchable(root)
    ensures var o, cli := Dispatch(root, p, setup), MakeCli(root, p);
      var active := cli.path[|cli.path| - 1];
      && (o.Invoke? <==>
            && !p.parseError && setup.None? && !cli.Bool("help") && active.run.Some?
            && |cli.arguments| >= RequiredCount(active.args.Elems()))
      && (o.Invoke? ==> o.handler == active.run.value && o.cli == cli)
      && (p.parseError ==> o == ShowHelp(cli.path))
      && (o.SetupFailed? <==> !p.parseError && setup.Some?)
      && (o.ShowHelp? ==> o.path == cli.path)
  {
  }

  /** What `main` makes of a dispatch outcome: help exits 1 with an empty
      telemetry message and prints nothing more, a failed setup step is
      reported as its own error, and an invoked handler's result is reported
      as the handler returned it. */
  lemma OutcomeReport(o: Outcome, handled: Option<CliError>)
    ensures o.ShowHelp? ==> MainReport(o.Returned(handled)) == Report(1, ErrorEvent(""), None)
    ensures o.SetupFailed? ==> MainReport(o.Returned(handled)) == MainReport(Some(o.err))
    ensures o.Invoke? ==> MainReport(o.Returned(handled)) == MainReport(handled)
  {
    HelpIsSilent();
  }

  /** A handler only ever runs with all its required positionals present, so
      `Positional` returns a real argument for each of them. */
  lemma InvokedHasRequiredPositionals(root: Command, p: Parsed, setup: Option<CliError>, k: nat)
    requires Dispatchable(root)
    requires Dispatch(root, p, setup).Invoke?
    ensures var cli := Dispatch(root, p, setup).cli;
      k < RequiredCount(cli.path[|cli.path| - 1].args.Elems()) ==> cli.Positional(k) == cli.arguments[k]
  {
  }

  function InitAll(path: seq<Command>): (r: seq<Command>)
    ensures |r| == |path|
  {
    seq(|path|, i requires 0 <= i < |path| => Init(path[i]))
  }

  lemma InitChildren(c: Command)
    ensures Init(c).children.Elems() == InitAll(c.children.Elems())
    ensures Init(c).IsLeaf() == c.IsLeaf()
  {
  }

  function InitOption(r: Option<Command>): Option<Command> {
    match r
    case None => None
    case Some(c) => Some(Init(c))
  }

  lemma {:induction false} FindChildInit(cs: seq<Command>, name: string)
    ensures FindChild(InitAll(cs), name) == InitOption(FindChild(cs, name))
  {
    if |cs| > 0 {
      assert InitAll(cs)[0] == Init(cs[0]);
      assert InitAll(cs)[1..] == InitAll(cs[1..]);
      FindChildInit(cs[1..], name);
    }
  }

  /** `Command.init` does not change where the walk goes: the path through
      the normalised tree is the normalised path, with the same positionals. */
  lemma {:induction false} WalkInit(node: Command, args: seq<string>)
    decreases |args|
    ensures Walk(Init(node), args) == (InitAll(Walk(node, args).0), Walk(node, args).1)
  {
    InitChildren(node);
    if |args| > 0 && !node.IsLeaf() {
      var cs := node.children.Elems();
      FindChildInit(cs, args[0]);
      match FindChild(cs, args[0])
      case None =>
      case Some(c) =>
        WalkInit(c, args[1..]);
        WalkInitStep(node, args, c);
    }
  }

  lemma WalkInitStep(node: Command, args: seq<string>, c: Command)
    requires |args| > 0 && !node.IsLeaf()
    requires FindChild(node.children.Elems(), args[0]) == Some(c)
    requires FindChild(Init(node).children.Elems(), args[0]) == Some(Init(c))
    requires Walk(Init(c), args[1..]) == (InitAll(Walk(c, args[1..]).0), Walk(c, args[1..]).1)
    ensures Walk(Init(node), args) == (InitAll(Walk(node, args).0), Walk(node, args).1)
  {
    var (sub, pos) := Walk(c, args[1..]);
    InitAllCons(c, sub);
    assert Init(node).children.Elems() == InitAll(node.children.Elems()) && !Init(node).IsLeaf() by {
      InitChildren(node);
    }
    calc {
      Walk(Init(node), args);
      ([Init(c)] + Walk(Init(c), args[1..]).0, Walk(Init(c), args[1..]).1);
      ([Init(c)] + InitAll(sub), pos);
    }
  }

  lemma InitAllCons(c: Command, sub: seq<Command>)
    ensures InitAll([c] + sub) == [Init(c)] + InitAll(sub)
  {
  }

  lemma ResolveInit(root: Command, args: seq<string>)
    ensures Resolve(Init(root), args) == (InitAll(Resolve(root, args).0), Resolve(root, args).1)
  {
    WalkInit(root, args);
    InitAllCons(root, Walk(root, args).0);
  }

  lemma MakeCliInit(root: Command, p: Parsed)
    ensures MakeCli(Init(root), p) ==
      MakeCli(root, p).(path := InitAll(MakeCli(root, p).path))
  {
    RegisteredInit(root, map[]);
    ResolveInit(root, p.args);
  }

  /** Dispatching over the normalised tree behaves as over the tree as
      declared: the same kind of outcome, the same handler and positionals,
      and the normalised path. */
  lemma DispatchInit(root: Command, p: Parsed, setup: Option<CliError>)
    requires Dispatchable(root)
    ensures Dispatchable(Init(root))
    ensures var o, o' := Dispatch(root, p, setup), Dispatch(Init(root), p, setup);
      && (o.ShowHelp? <==> o'.ShowHelp?) && (o.SetupFailed? ==> o' == o)
      && (o.ShowHelp? ==> o'.path == InitAll(o.path))
      && (o.Invoke? <==> o'.Invoke?)
      && (o.Invoke? ==> o'.handler == o.handler && o'.cli.arguments == o.cli.arguments &&
                        o'.cli.flags == o.cli.flags && o'.cli.path == InitAll(o.cli.path))
  {
    RegisteredInit(root, map[]);
    MakeCliInit(root, p);
    DecideInit(MakeCli(root, p), p.parseError, setup);
  }

  /** The decision only looks at the active command's handler and arguments,
      which `Command.init` keeps. */
  lemma DecideInit(cli: Cli, parseError: bool, setup: Option<CliError>)
    requires Decidable(cli)
    ensures Decidable(cli.(path := InitAll(cli.path)))
    ensures var o, o' := Decide(cli, parseError, setup), Decide(cli.(path := InitAll(cli.path)), parseError, setup);
      && (o.ShowHelp? <==> o'.ShowHelp?) && (o.SetupFailed? ==> o' == o)
      && (o.ShowHelp? ==> o'.path == InitAll(o.path))
      && (o.Invoke? <==> o'.Invoke?)
      && (o.Invoke? ==> o'.handler == o.handler && o'.cli == cli.(path := InitAll(cli.path)))
  {
    var n := |cli.path|;
    assert InitAll(cli.path)[n - 1] == Init(cli.path[n - 1]);
  }
}
