/** Dispatch over the CLI's own command tree. */
module RootDispatch {
  import opened Errors
  import opened Commands
  import opened Flags
  import opened Dispatcher
  import opened Tree

  /** No flag is declared anywhere in the subtree. */
  ghost predicate FlagFree(c: Command)
    decreases c
  {
    && c.flags.Elems() == []
    && forall i :: 0 <= i < |c.children.Elems()| ==> FlagFree(c.children.Elems()[i])
  }

  lemma {:induction false} FlagFreeRegistersNothing(c: Command, m: map<string, FlagKind>)
    requires FlagFree(c)
    decreases c, 1
    ensures Registered(c, m) == m
  {
    FlagFreeChildren(c, 0, |c.children.Elems()|, m);
  }

  lemma {:induction false} FlagFreeChildren(c: Command, lo: nat, hi: nat, m: map<string, FlagKind>)
    requires lo <= hi <= |c.children.Elems()|
    requires forall i :: lo <= i < hi ==> FlagFree(c.children.Elems()[i])
    decreases c, 0, hi
    ensures RegisterChildren(c, hi, m) == RegisterChildren(c, lo, m)
  {
    if lo < hi {
      FlagFreeChildren(c, lo, hi - 1, m);
      FlagFreeRegistersNothing(c.children.Elems()[hi - 1], RegisterChildren(c, hi - 1, m));
    }
  }

  const GLOBAL_FLAGS: map<string, FlagKind> :=
    map["stage" := StringKind, "verbose" := BoolKind, "help" := BoolKind]

  lemma RootOwnFlags()
    ensures RegisterOwn(ROOT.flags.Elems(), map[]) == GLOBAL_FLAGS
  {
    var fs := ROOT.flags.Elems();
    assert fs[..2][..1] == fs[..1] && fs[..1][..0] == [];
    assert RegisterOwn(fs[..1], map[]) == map["stage" := StringKind];
    assert RegisterOwn(fs[..2], map[]) == map["stage" := StringKind, "verbose" := BoolKind];
    assert fs[..3] == fs;
  }

  lemma RootChildrenFlagFree()
    ensures forall i :: 0 <= i < 12 ==> FlagFree(ROOT.children.Elems()[i])
    ensures forall i :: 13 <= i < 17 ==> FlagFree(ROOT.children.Elems()[i])
  {
    assert FlagFree(SECRET);
    assert FlagFree(TELEMETRY);
    assert FlagFree(STATE);
  }

  lemma ImportRegistersParent(m: map<string, FlagKind>)
    ensures Registered(ROOT.children.Elems()[12], m) == m["parent" := StringKind]
  {
    var c := ROOT.children.Elems()[12];
    assert c.name == "import-unstable";
    assert RegisterOwn(c.flags.Elems(), m) == m["parent" := StringKind];
  }

  /** The flat flag map of the CLI: the three global flags and --parent. */
  lemma RootRegistered()
    ensures Registered(ROOT, map[]) == GLOBAL_FLAGS["parent" := StringKind]
  {
    RootOwnFlags();
    RootChildrenFlagFree();
    FlagFreeChildren(ROOT, 0, 12, GLOBAL_FLAGS);
    ImportRegistersParent(GLOBAL_FLAGS);
    FlagFreeChildren(ROOT, 13, 17, GLOBAL_FLAGS);
  }

  lemma RootDispatchable()
    ensures Dispatchable(ROOT)
  {
    RootRegistered();
  }

  lemma RootChildNames()
    ensures |ROOT.children.Elems()| == 17
    ensures ROOT.children.Elems()[5] == SECRET
    ensures forall j :: 0 <= j < 5 ==> ROOT.children.Elems()[j].name != "secret"
  {
  }

  lemma FindChildAt(cs: seq<Command>, name: string, k: nat)
    requires k < |cs| && cs[k].name == name
    requires forall j :: 0 <= j < k ==> cs[j].name != name
    ensures FindChild(cs, name) == Some(cs[k])
    decreases k
  {
    if k > 0 {
      assert cs[0].name != name;
      FindChildAt(cs[1..], name, k - 1);
    }
  }

  /** The walk descends into a child named by the first argument. */
  lemma WalkDescend(node: Command, c: Command, name: string, rest: seq<string>)
    requires FindChild(node.children.Elems(), name) == Some(c)
    ensures Walk(node, [name] + rest) == ([c] + Walk(c, rest).0, Walk(c, rest).1)
  {
    var args := [name] + rest;
    assert args[0..] == args && args[0] == name && args[1..] == rest;
    WalkStep(node, args, 0);
  }

  /** Two matching names followed by positionals at a leaf resolve to the
      two commands and those positionals. */
  lemma ResolveTwoSteps(root: Command, a: string, ca: Command, b: string, cb: Command, rest: seq<string>)
    requires FindChild(root.children.Elems(), a) == Some(ca)
    requires FindChild(ca.children.Elems(), b) == Some(cb)
    requires cb.IsLeaf() && |rest| > 0
    ensures Resolve(root, [a, b] + rest) == ([root, ca, cb], rest)
  {
    var w := Walk(cb, rest);
    assert w == ([], rest);
    WalkDescend(ca, cb, b, rest);
    assert Walk(ca, [b] + rest) == ([cb] + w.0, w.1);
    assert [cb] + w.0 == [cb];
    var v := Walk(ca, [b] + rest);
    WalkDescend(root, ca, a, [b] + rest);
    assert Walk(root, [a] + ([b] + rest)) == ([ca] + v.0, v.1);
    assert [a, b] + rest == [a] + ([b] + rest);
    assert [root] + ([ca] + [cb]) == [root, ca, cb];
  }

  lemma SecretSetResolves()
    ensures Resolve(ROOT, ["secret", "set", "Foo", "bar"]) == ([ROOT, SECRET, SECRET_SET], ["Foo", "bar"])
  {
    RootChildNames();
    FindChildAt(ROOT.children.Elems(), "secret", 5);
    FindChildAt(SECRET.children.Elems(), "set", 0);
    assert SECRET_SET.IsLeaf();
    ResolveTwoSteps(ROOT, "secret", SECRET, "set", SECRET_SET, ["Foo", "bar"]);
    assert ["secret", "set"] + ["Foo", "bar"] == ["secret", "set", "Foo", "bar"];
  }

  /** `sst secret set Foo bar --stage=prod` runs the `secret set` handler with
      positionals Foo and bar and the stage flag "prod", over the tree as
      declared; `SecretSetAfterInit` carries this over to the tree after
      `init`, which is the one the program dispatches over. */
  lemma SecretSetExample()
    ensures Dispatchable(ROOT)
    ensures var o := Dispatch(ROOT, Parsed(["secret", "set", "Foo", "bar"], false,
                                           map["stage" := StrValue("prod")]), None);
      && o.Invoke? && o.handler == SecretSet
      && o.cli.path == [ROOT, SECRET, SECRET_SET]
      && o.cli.arguments == ["Foo", "bar"]
      && "stage" in o.cli.flags && o.cli.flags["stage"] == StrValue("prod")
      && o.cli.String("stage") == "prod"
  {
    RootDispatchable();
    var p := Parsed(["secret", "set", "Foo", "bar"], false, map["stage" := StrValue("prod")]);
    SecretSetRecord();
    var cli := MakeCli(ROOT, p);
    assert SECRET_SET.run == Some(SecretSet) && RequiredCount(SECRET_SET.args.Elems()) == 2;
    assert Dispatch(ROOT, p, None) == Decide(cli, false, None);
  }

  /** The record `run` builds for `sst secret set Foo bar --stage=prod`. */
  lemma SecretSetRecord()
    ensures var cli := MakeCli(ROOT, Parsed(["secret", "set", "Foo", "bar"], false,
                                            map["stage" := StrValue("prod")]));
      && cli.path == [ROOT, SECRET, SECRET_SET] && cli.arguments == ["Foo", "bar"]
      && "help" in cli.flags && cli.flags["help"] == BoolValue(false)
      && "stage" in cli.flags && cli.flags["stage"] == StrValue("prod")
  {
    SecretSetResolves();
    RootFlagValues(map["stage" := StrValue("prod")]);
  }

  /** The flag values over `Root` when only --stage is given. */
  lemma RootFlagValues(given: map<string, FlagValue>)
    requires given == map["stage" := StrValue("prod")]
    ensures var vs := FlagValues(Registered(ROOT, map[]), given);
      && "help" in vs && vs["help"] == BoolValue(false)
      && "stage" in vs && vs["stage"] == StrValue("prod")
  {
    RootRegistered();
    var registered := GLOBAL_FLAGS["parent" := StringKind];
    assert registered["help"] == BoolKind && registered["stage"] == StringKind;
  }

  lemma NoRootChildIsBogus()
    ensures FindChild(ROOT.children.Elems(), "bogus") == None
  {
    var cs := ROOT.children.Elems();
    assert cs == [INIT, DEV, DEPLOY, ADD, INSTALL, SECRET, SHELL, REMOVE, UNLOCK, VERSION, UPGRADE,
                  TELEMETRY, IMPORT, SERVER, INTROSPECT, REFRESH, STATE];
    forall k | 0 <= k < |cs| ensures cs[k].name != "bogus" {
      assert |cs[k].name| != 5 || cs[k].name[0] == 's';
    }
    FindChildFirst(cs, "bogus");
  }

  /** `sst bogus` renders the root's help rather than failing, over the tree
      as declared; `UnknownCommandAfterInit` carries this over to the tree
      after `init`. */
  lemma UnknownCommandExample()
    ensures Dispatchable(ROOT)
    ensures Dispatch(ROOT, Parsed(["bogus"], false, map[]), None) == ShowHelp([ROOT])
  {
    RootDispatchable();
    NoRootChildIsBogus();
    ResolveCharacterised(ROOT, ["bogus"], [ROOT], []);
  }

  /** `sst secret set Foo bar --stage=prod` as the program runs it, over the
      tree after `init`: the same handler, positionals and flags, with the
      normalised commands on the path. */
  lemma SecretSetAfterInit()
    ensures Dispatchable(Init(ROOT))
    ensures var o := Dispatch(Init(ROOT), Parsed(["secret", "set", "Foo", "bar"], false,
                                                 map["stage" := StrValue("prod")]), None);
      && o.Invoke? && o.handler == SecretSet
      && o.cli.path == [Init(ROOT), Init(SECRET), Init(SECRET_SET)]
      && o.cli.arguments == ["Foo", "bar"]
      && "stage" in o.cli.flags && o.cli.flags["stage"] == StrValue("prod")
  {
    SecretSetExample();
    var p := Parsed(["secret", "set", "Foo", "bar"], false, map["stage" := StrValue("prod")]);
    DispatchInit(ROOT, p, None);
    InitAllThree(ROOT, SECRET, SECRET_SET);
  }

  lemma InitAllThree(a: Command, b: Command, c: Command)
    ensures InitAll([a, b, c]) == [Init(a), Init(b), Init(c)]
  {
  }

  /** `sst bogus` as the program runs it, over the tree after `init`. */
  lemma UnknownCommandAfterInit()
    ensures Dispatchable(Init(ROOT))
    ensures Dispatch(Init(ROOT), Parsed(["bogus"], false, map[]), None) == ShowHelp([Init(ROOT)])
  {
    UnknownCommandExample();
    DispatchInit(ROOT, Parsed(["bogus"], false, map[]), None);
    assert InitAll([ROOT]) == [Init(ROOT)];
  }
}
