/** The static command tree of the CLI: commands, their arguments and flags,
    the normalisation `Command.init` applies at start-up, and the usage text
    of an argument list (`ArgumentList.String`). */
module Commands {
  import opened Errors

  /** A Go slice, which may be nil. `len` and `range` treat nil as empty, so
      only `Command.init` and serialisation can tell the two apart. */
  datatype Slice<T> = Nil | Make(items: seq<T>) {
    function Elems(): (s: seq<T>)
      ensures Nil? ==> s == []
      ensures Make? ==> s == items
    {
      if Nil? then [] else items
    }
  }

  /** A positional argument a command declares. */
  datatype Argument = Argument(name: string, required: bool)

  /** A flag a command declares; `typ` is the type tag, "string" or "bool" for
      every flag the tree declares (any other tag is skipped at registration). */
  datatype Flag = Flag(name: string, typ: string)

  /** The handler (`Run` function) attached to a command. */
  datatype Handler =
    | InitProject | Dev | Deploy | Add | Install
    | SecretSet | SecretRemove | SecretList | Shell | Remove | Unlock
    | Version | Upgrade | TelemetryEnable | TelemetryDisable
    | ImportUnstable | Server | Introspect | Refresh | StateEdit

  /** A node of the command tree; `run` is None where the source's `Run` is nil. */
  datatype Command = Command(
    name: string,
    hidden: bool,
    args: Slice<Argument>,
    flags: Slice<Flag>,
    examples: Slice<string>,
    children: Slice<Command>,
    run: Option<Handler>)
  {
    predicate IsLeaf() {
      |children.Elems()| == 0
    }
  }

  /** No slice anywhere in the tree is nil. */
  ghost predicate Normalised(c: Command)
    decreases c
  {
    && c.args.Make? && c.flags.Make? && c.examples.Make? && c.children.Make?
    && forall i :: 0 <= i < |c.children.items| ==> Normalised(c.children.items[i])
  }

  /** `Command.init`: replaces every nil slice of the tree by an empty one and
      leaves everything else as it was. */
  function Init(c: Command): (r: Command)
    decreases c
    ensures r.name == c.name && r.hidden == c.hidden && r.run == c.run
    ensures r.args == Make(c.args.Elems()) && r.flags == Make(c.flags.Elems())
    ensures r.examples == Make(c.examples.Elems())
    ensures r.children.Make? && |r.children.items| == |c.children.Elems()|
  {
    var cs := c.children.Elems();
    Command(c.name, c.hidden, Make(c.args.Elems()), Make(c.flags.Elems()),
            Make(c.examples.Elems()),
            Make(seq(|cs|, i requires 0 <= i < |cs| => Init(cs[i]))), c.run)
  }

  /** After `Command.init` the whole tree is normalised. */
  lemma {:induction false} InitNormalises(c: Command)
    decreases c
    ensures Normalised(Init(c))
  {
    var r := Init(c);
    forall i | 0 <= i < |r.children.items|
      ensures Normalised(r.children.items[i])
    {
      InitNormalises(c.children.Elems()[i]);
    }
  }

  /** A tree that is already normalised is left exactly as it is. */
  lemma {:induction false} InitFixesNormalised(c: Command)
    requires Normalised(c)
    decreases c
    ensures Init(c) == c
  {
    var r := Init(c);
    forall i | 0 <= i < |r.children.items|
      ensures r.children.items[i] == c.children.items[i]
    {
      InitFixesNormalised(c.children.items[i]);
    }
  }

  /** Running `Command.init` twice is the same as running it once. */
  lemma InitIdempotent(c: Command)
    ensures Init(Init(c)) == Init(c)
  {
    InitNormalises(c);
    InitFixesNormalised(Init(c));
  }

  /** The number of required arguments in a list. */
  function RequiredCount(args: seq<Argument>): (n: nat)
    ensures n <= |args|
    ensures n == |args| <==> forall i :: 0 <= i < |args| ==> args[i].required
    ensures n == 0 <==> forall i :: 0 <= i < |args| ==> !args[i].required
  {
    if |args| == 0 then 0
    else RequiredCount(args[..|args| - 1]) + (if args[|args| - 1].required then 1 else 0)
  }

  /** How one argument appears in usage text: `<name>` when required,
      `[name]` otherwise. */
  function Token(a: Argument): (t: string)
    ensures |t| == |a.name| + 2 && t[1..|t| - 1] == a.name
    ensures t[0] == (if a.required then '<' else '[')
    ensures t[|t| - 1] == (if a.required then '>' else ']')
  {
    if a.required then "<" + a.name + ">" else "[" + a.name + "]"
  }

  /** `ArgumentList.String`: the tokens of the arguments, in order, joined by
      single spaces. */
  function ArgListString(args: seq<Argument>): (s: string)
    ensures |args| == 0 <==> s == ""
  {
    if |args| == 0 then ""
    else if |args| == 1 then Token(args[0])
    else Token(args[0]) + " " + ArgListString(args[1..])
  }

  /** The index of the first space in `s`, or |s| when there is none. */
  function SpaceIndex(s: string): (i: nat)
    ensures i <= |s|
    ensures forall j :: 0 <= j < i ==> s[j] != ' '
    ensures i < |s| ==> s[i] == ' '
  {
    if |s| == 0 || s[0] == ' ' then 0 else 1 + SpaceIndex(s[1..])
  }

  /** Reads one usage token back into an argument. */
  function Untoken(t: string): Argument {
    if |t| < 2 then Argument(t, false)
    else Argument(t[1..|t| - 1], t[0] == '<')
  }

  /** Reads usage text back into the argument list it was rendered from. */
  function ParseArgList(s: string): seq<Argument>
    decreases |s|
  {
    if s == "" then []
    else
      var i := SpaceIndex(s);
      if i == |s| then [Untoken(s)] else [Untoken(s[..i])] + ParseArgList(s[i + 1..])
  }

  predicate NoSpaceIn(s: string) {
    forall j :: 0 <= j < |s| ==> s[j] != ' '
  }

  /** A token of an argument without spaces has no space and reads back. */
  lemma TokenRoundTrip(a: Argument)
    requires NoSpaceIn(a.name)
    ensures NoSpaceIn(Token(a)) && Untoken(Token(a)) == a
  {
    var t := Token(a);
    forall j | 0 <= j < |t| ensures t[j] != ' ' {
      if 0 < j < |t| - 1 {
        assert t[j] == t[1..|t| - 1][j - 1];
      }
    }
  }

  /** Parsing stops the first token at the first space. */
  lemma ParseFirstToken(t: string, rest: string)
    requires t != "" && NoSpaceIn(t)
    ensures ParseArgList(t + " " + rest) == [Untoken(t)] + ParseArgList(rest)
  {
    var s := t + " " + rest;
    assert s[|t|] == ' ';
    assert forall j :: 0 <= j < |t| ==> s[j] == t[j];
    assert SpaceIndex(s) == |t|;
    assert s[..|t|] == t;
    assert s[|t| + 1..] == rest;
  }

  /** Parsing a single token without spaces gives one argument. */
  lemma ParseLastToken(t: string)
    requires t != "" && NoSpaceIn(t)
    ensures ParseArgList(t) == [Untoken(t)]
  {
    assert SpaceIndex(t) == |t|;
  }

  /** The usage text determines the argument list: names and whether each is
      required, in order, as long as no name contains a space. */
  lemma {:induction false} ArgListRoundTrip(args: seq<Argument>)
    requires forall k :: 0 <= k < |args| ==> NoSpaceIn(args[k].name)
    ensures ParseArgList(ArgListString(args)) == args
    decreases |args|
  {
    if |args| > 0 {
      var t := Token(args[0]);
      TokenRoundTrip(args[0]);
      if |args| == 1 {
        assert ArgListString(args) == t;
        ParseLastToken(t);
      } else {
        var rest := ArgListString(args[1..]);
        assert ArgListString(args) == t + " " + rest;
        ParseFirstToken(t, rest);
        ArgListRoundTrip(args[1..]);
        assert args == [args[0]] + args[1..];
      }
    }
  }
}
