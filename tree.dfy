/** The CLI's own command tree, `Root`, as declared in cmd/sst/main.go, with
    help text left out. A field the source leaves unset is `Nil`. */
module Tree {
  import opened Errors
  import opened Commands

  function Node(name: string, hidden: bool, args: Slice<Argument>, flags: Slice<Flag>,
                examples: Slice<string>, children: Slice<Command>, run: Option<Handler>): Command
  {
    Command(name, hidden, args, flags, examples, children, run)
  }

  /** A command with a handler and nothing but its name set. */
  function Plain(name: string, hidden: bool, run: Handler): Command {
    Node(name, hidden, Nil, Nil, Nil, Nil, Some(run))
  }

  const SECRET_SET: Command := Node("set", false,
    Make([Argument("name", true), Argument("value", true)]), Nil,
    Make(["sst secret set StripeSecret 123456789",
          "sst secret set StripeSecret productionsecret --stage=production"]),
    Nil, Some(SecretSet))

  const SECRET_REMOVE: Command := Node("remove", false, Make([Argument("name", true)]), Nil,
    Make(["sst secret remove StripeSecret",
          "sst secret remove StripeSecret --stage=production"]),
    Nil, Some(SecretRemove))

  const SECRET: Command := Node("secret", false, Nil, Nil, Nil, Make([
    SECRET_SET,
    SECRET_REMOVE,
    Node("list", false, Nil, Nil, Make(["sst secret list --stage=production"]), Nil,
      Some(SecretList))
  ]), None)

  const TELEMETRY: Command := Node("telemetry", false, Nil, Nil, Nil, Make([
    Plain("enable", false, TelemetryEnable),
    Plain("disable", false, TelemetryDisable)
  ]), None)

  const STATE: Command := Node("state", true, Nil, Nil, Nil, Make([
    Plain("edit", false, StateEdit)
  ]), None)

  const INIT: Command := Plain("init", false, InitProject)
  const DEV: Command := Node("dev", false, Make([Argument("command", false)]), Nil,
    Make(["sst dev", "sst dev next dev", "sst dev \"next dev --turbo\""]), Nil, Some(Dev))
  const DEPLOY: Command :=
    Node("deploy", false, Nil, Nil, Make(["sst deploy --stage=production"]), Nil, Some(Deploy))
  const ADD: Command := Node("add", false, Make([Argument("provider", true)]), Nil, Nil, Nil, Some(Add))
  const INSTALL: Command := Plain("install", false, Install)
  const SHELL: Command :=
    Node("shell", false, Make([Argument("command", false)]), Nil, Make(["sst shell"]), Nil, Some(Shell))
  const REMOVE: Command := Plain("remove", false, Remove)
  const UNLOCK: Command := Plain("unlock", false, Unlock)
  const VERSION: Command := Plain("version", false, Version)
  const UPGRADE: Command :=
    Node("upgrade", false, Make([Argument("version", false)]), Nil, Nil, Nil, Some(Upgrade))
  const IMPORT: Command := Node("import-unstable", true,
    Make([Argument("type", true), Argument("name", true), Argument("id", true)]),
    Make([Flag("parent", "string")]), Nil, Nil, Some(ImportUnstable))
  const SERVER: Command := Plain("server", true, Server)
  const INTROSPECT: Command := Plain("introspect", true, Introspect)
  const REFRESH: Command := Plain("refresh", true, Refresh)

  const ROOT: Command := Node("sst", false, Nil,
    Make([Flag("stage", "string"), Flag("verbose", "bool"), Flag("help", "bool")]),
    Nil,
    Make([INIT, DEV, DEPLOY, ADD, INSTALL, SECRET, SHELL, REMOVE, UNLOCK, VERSION, UPGRADE,
          TELEMETRY, IMPORT, SERVER, INTROSPECT, REFRESH, STATE]),
    None)

  /** The names of a list of commands, in order. */
  function Names(cs: seq<Command>): (r: seq<string>)
    ensures |r| == |cs| && forall i :: 0 <= i < |cs| ==> r[i] == cs[i].name
  {
    seq(|cs|, i requires 0 <= i < |cs| => cs[i].name)
  }

  /** The shape of `Root`: the root has no handler and takes the three global
      flags, and its commands come in the declared order. */
  lemma RootShape()
    ensures ROOT.name == "sst" && ROOT.run.None? && !ROOT.hidden
    ensures ROOT.flags.Elems() == [Flag("stage", "string"), Flag("verbose", "bool"), Flag("help", "bool")]
    ensures Names(ROOT.children.Elems()) ==
      ["init", "dev", "deploy", "add", "install", "secret", "shell", "remove", "unlock", "version",
       "upgrade", "telemetry", "import-unstable", "server", "introspect", "refresh", "state"]
  {
    var cs := ROOT.children.Elems();
    assert cs == [INIT, DEV, DEPLOY, ADD, INSTALL, SECRET, SHELL, REMOVE, UNLOCK, VERSION, UPGRADE,
                  TELEMETRY, IMPORT, SERVER, INTROSPECT, REFRESH, STATE];
  }

  /** The hidden commands of `Root` are exactly the last five: the unstable
      import, the server, introspection, refresh and state. */
  lemma RootHidden()
    ensures |ROOT.children.Elems()| == 17
    ensures forall i :: 0 <= i < |ROOT.children.Elems()| ==> (ROOT.children.Elems()[i].hidden <==> 12 <= i)
  {
    var cs := ROOT.children.Elems();
    assert cs == [INIT, DEV, DEPLOY, ADD, INSTALL, SECRET, SHELL, REMOVE, UNLOCK, VERSION, UPGRADE,
                  TELEMETRY, IMPORT, SERVER, INTROSPECT, REFRESH, STATE];
  }
}
