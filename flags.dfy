/** Flag registration (`Command.registerFlags`) and the parsed-invocation
    record `Cli` with its accessors `Positional`, `String` and `Bool`. */
module Flags {
  import opened Errors
  import opened Commands

  datatype FlagKind = StringKind | BoolKind

  /** A flag's value after parsing. */
  datatype FlagValue = StrValue(s: string) | BoolValue(b: bool)

  /** The kind a type tag registers, if any. */
  function KindOf(typ: string): (k: Option<FlagKind>)
    ensures k == Some(StringKind) <==> typ == "string"
    ensures k == Some(BoolKind) <==> typ == "bool"
  {
    if typ == "string" then Some(StringKind)
    else if typ == "bool" then Some(BoolKind)
    else None
  }

  /** Registers one flag: string and bool flags enter the map under their
      name with their kind, a flag of any other type is skipped. */
  function AddFlag(m: map<string, FlagKind>, f: Flag): (r: map<string, FlagKind>)
    ensures r.Keys == m.Keys + (if KindOf(f.typ).Some? then {f.name} else {})
    ensures KindOf(f.typ).Some? ==> r[f.name] == KindOf(f.typ).value
    ensures forall n :: n in m && (n != f.name || KindOf(f.typ).None?) ==> r[n] == m[n]
  {
    match KindOf(f.typ)
    case Some(k) => m[f.name := k]
    case None => m
  }

  /** Registers a command's own flags, in order; entries are only added or
      overwritten, never removed. */
  function RegisterOwn(fs: seq<Flag>, m: map<string, FlagKind>): (r: map<string, FlagKind>)
    decreases |fs|
    ensures m.Keys <= r.Keys
  {
    if |fs| == 0 then m else AddFlag(RegisterOwn(fs[..|fs| - 1], m), fs[|fs| - 1])
  }

  /** `registerFlags` on a command: its own flags, then each child's subtree
      in order, all into one flat map; nothing already registered is lost. */
  function Registered(c: Command, m: map<string, FlagKind>): (r: map<string, FlagKind>)
    decreases c, 1
    ensures m.Keys <= r.Keys
  {
    RegisterChildren(c, |c.children.Elems()|, RegisterOwn(c.flags.Elems(), m))
  }

  /** Registers the subtrees of the first `k` children of `c`. */
  function RegisterChildren(c: Command, k: nat, m: map<string, FlagKind>): (r: map<string, FlagKind>)
    requires k <= |c.children.Elems()|
    decreases c, 0, k
    ensures m.Keys <= r.Keys
  {
    if k == 0 then m
    else Registered(c.children.Elems()[k - 1], RegisterChildren(c, k - 1, m))
  }

  /** The names of a list's string and bool flags: an independent, set-based
      description of what registration adds. */
  function OwnNames(fs: seq<Flag>): set<string> {
    set i | 0 <= i < |fs| && KindOf(fs[i].typ).Some? :: fs[i].name
  }

  /** The names of all string and bool flags declared anywhere in the tree. */
  function TreeNames(c: Command): set<string>
    decreases c, 1
  {
    OwnNames(c.flags.Elems()) + ChildrenNames(c, |c.children.Elems()|)
  }

  function ChildrenNames(c: Command, k: nat): set<string>
    requires k <= |c.children.Elems()|
    decreases c, 0, k
  {
    if k == 0 then {} else ChildrenNames(c, k - 1) + TreeNames(c.children.Elems()[k - 1])
  }

  lemma {:induction false} RegisterOwnKeys(fs: seq<Flag>, m: map<string, FlagKind>)
    decreases |fs|
    ensures RegisterOwn(fs, m).Keys == m.Keys + OwnNames(fs)
    ensures forall n :: n in m && n !in OwnNames(fs) ==> RegisterOwn(fs, m)[n] == m[n]
  {
    if |fs| > 0 {
      var init := fs[..|fs| - 1];
      RegisterOwnKeys(init, m);
      assert OwnNames(fs) == OwnNames(init) +
        (if KindOf(fs[|fs| - 1].typ).Some? then {fs[|fs| - 1].name} else {}) by {
        forall n | n in OwnNames(fs)
          ensures n in OwnNames(init) || (KindOf(fs[|fs| - 1].typ).Some? && n == fs[|fs| - 1].name)
        {
          var i :| 0 <= i < |fs| && KindOf(fs[i].typ).Some? && fs[i].name == n;
          if i < |fs| - 1 { assert init[i] == fs[i]; }
        }
        forall n | n in OwnNames(init) ensures n in OwnNames(fs) {
          var i :| 0 <= i < |init| && KindOf(init[i].typ).Some? && init[i].name == n;
          assert fs[i] == init[i];
        }
      }
    }
  }

  /** Registration adds exactly the names of the string and bool flags
      declared anywhere in the tree, wherever they are declared, and leaves
      every other entry as it was. */
  lemma {:induction false} RegisteredKeys(c: Command, m: map<string, FlagKind>)
    decreases c, 1
    ensures Registered(c, m).Keys == m.Keys + TreeNames(c)
    ensures forall n :: n in m && n !in TreeNames(c) ==> Registered(c, m)[n] == m[n]
  {
    var own := RegisterOwn(c.flags.Elems(), m);
    RegisterOwnKeys(c.flags.Elems(), m);
    RegisterChildrenKeys(c, |c.children.Elems()|, own);
  }

  lemma {:induction false} RegisterChildrenKeys(c: Command, k: nat, m: map<string, FlagKind>)
    requires k <= |c.children.Elems()|
    decreases c, 0, k
    ensures RegisterChildren(c, k, m).Keys == m.Keys + ChildrenNames(c, k)
    ensures forall n :: n in m && n !in ChildrenNames(c, k) ==> RegisterChildren(c, k, m)[n] == m[n]
  {
    if k > 0 {
      RegisterChildrenKeys(c, k - 1, m);
      RegisteredKeys(c.children.Elems()[k - 1], RegisterChildren(c, k - 1, m));
    }
  }

  /** Every string or bool declaration of `n` in the list has kind `k`. */
  ghost predicate OwnDeclaresAs(fs: seq<Flag>, n: string, k: FlagKind) {
    forall i :: 0 <= i < |fs| && fs[i].name == n ==> KindOf(fs[i].typ) in {None, Some(k)}
  }

  /** Every string or bool declaration of `n` anywhere in the tree has kind `k`. */
  ghost predicate TreeDeclaresAs(c: Command, n: string, k: FlagKind)
    decreases c
  {
    && OwnDeclaresAs(c.flags.Elems(), n, k)
    && forall i :: 0 <= i < |c.children.Elems()| ==> TreeDeclaresAs(c.children.Elems()[i], n, k)
  }

  lemma {:induction false} RegisterOwnKind(fs: seq<Flag>, m: map<string, FlagKind>, n: string, k: FlagKind)
    requires OwnDeclaresAs(fs, n, k)
    requires n in m ==> m[n] == k
    decreases |fs|
    ensures n in RegisterOwn(fs, m) ==> RegisterOwn(fs, m)[n] == k
  {
    if |fs| > 0 {
      var init := fs[..|fs| - 1];
      assert OwnDeclaresAs(init, n, k) by {
        forall i | 0 <= i < |init| && init[i].name == n ensures KindOf(init[i].typ) in {None, Some(k)} {
          assert init[i] == fs[i];
        }
      }
      RegisterOwnKind(init, m, n, k);
    }
  }

  lemma {:induction false} RegisteredKindFrom(c: Command, m: map<string, FlagKind>, n: string, k: FlagKind)
    requires TreeDeclaresAs(c, n, k)
    requires n in m ==> m[n] == k
    decreases c, 1
    ensures n in Registered(c, m) ==> Registered(c, m)[n] == k
  {
    RegisterOwnKind(c.flags.Elems(), m, n, k);
    RegisterChildrenKind(c, |c.children.Elems()|, RegisterOwn(c.flags.Elems(), m), n, k);
  }

  lemma {:induction false} RegisterChildrenKind(c: Command, j: nat, m: map<string, FlagKind>, n: string, k: FlagKind)
    requires j <= |c.children.Elems()|
    requires forall i :: 0 <= i < j ==> TreeDeclaresAs(c.children.Elems()[i], n, k)
    requires n in m ==> m[n] == k
    decreases c, 0, j
    ensures n in RegisterChildren(c, j, m) ==> RegisterChildren(c, j, m)[n] == k
  {
    if j > 0 {
      RegisterChildrenKind(c, j - 1, m, n, k);
      RegisteredKindFrom(c.children.Elems()[j - 1], RegisterChildren(c, j - 1, m), n, k);
    }
  }

  /** The kind each name is registered with: a name declared somewhere in
      the tree as a string or bool flag, and only ever with kind `k`, is
      registered with kind `k`, so `Cli.String` or `Cli.Bool` can read it. */
  lemma RegisteredKind(c: Command, n: string, k: FlagKind)
    requires TreeDeclaresAs(c, n, k) && n in TreeNames(c)
    ensures n in Registered(c, map[]) && Registered(c, map[])[n] == k
  {
    RegisteredKeys(c, map[]);
    RegisteredKindFrom(c, map[], n, k);
  }

  /** `Command.init` does not change what is registered. */
  lemma {:induction false} RegisteredInit(c: Command, m: map<string, FlagKind>)
    decreases c, 1
    ensures Registered(Init(c), m) == Registered(c, m)
  {
    RegisterChildrenInit(c, |c.children.Elems()|, RegisterOwn(c.flags.Elems(), m));
  }

  lemma {:induction false} RegisterChildrenInit(c: Command, k: nat, m: map<string, FlagKind>)
    requires k <= |c.children.Elems()|
    decreases c, 0, k
    ensures RegisterChildren(Init(c), k, m) == RegisterChildren(c, k, m)
  {
    if k > 0 {
      var child := c.children.Elems()[k - 1];
      var before := RegisterChildren(c, k - 1, m);
      RegisterChildrenInit(c, k - 1, m);
      assert Init(c).children.Elems()[k - 1] == Init(child);
      RegisteredInit(child, before);
      calc {
        RegisterChildren(Init(c), k, m);
        Registered(Init(child), RegisterChildren(Init(c), k - 1, m));
        Registered(Init(child), before);
        Registered(child, before);
      }
    }
  }

  /** The flat map that `run` fills before parsing. */
  class FlagRegistry {
    var parsed: map<string, FlagKind>

    constructor ()
      ensures parsed == map[]
    {
      parsed := map[];
    }

    /** `registerFlags`: adds this command's flags, then recurses into the
        children in order. */
    method Register(c: Command)
      modifies this
      decreases c
      ensures parsed == Registered(c, old(parsed))
    {
      var fs := c.flags.Elems();
      var i := 0;
      while i < |fs|
        invariant 0 <= i <= |fs|
        invariant parsed == RegisterOwn(fs[..i], old(parsed))
      {
        var f := fs[i];
        assert fs[..i + 1][..i] == fs[..i];
        assert RegisterOwn(fs[..i + 1], old(parsed)) == AddFlag(parsed, f);
        if f.typ == "string" {
          parsed := parsed[f.name := StringKind];
        }
        if f.typ == "bool" {
          parsed := parsed[f.name := BoolKind];
        }
        i := i + 1;
      }
      assert fs[..i] == fs;
      var own := parsed;
      var cs := c.children.Elems();
      var j := 0;
      while j < |cs|
        invariant 0 <= j <= |cs|
        invariant parsed == RegisterChildren(c, j, own)
      {
        assert RegisterChildren(c, j + 1, own) == Registered(cs[j], parsed);
        Register(cs[j]);
        j := j + 1;
      }
    }
  }

  function Default(k: FlagKind): FlagValue {
    match k
    case StringKind => StrValue("")
    case BoolKind => BoolValue(false)
  }

  predicate HasKind(v: FlagValue, k: FlagKind) {
    (k == StringKind && v.StrValue?) || (k == BoolKind && v.BoolValue?)
  }

  /** The values behind the registered flags once the parser has run: what the
      parser set (`given`), else the registration default ("" or false). */
  function FlagValues(registered: map<string, FlagKind>, given: map<string, FlagValue>): (vs: map<string, FlagValue>)
    ensures vs.Keys == registered.Keys
    ensures forall n :: n in vs ==> HasKind(vs[n], registered[n])
    ensures forall n :: n in vs && n !in given ==> vs[n] == Default(registered[n])
    ensures forall n :: n in vs && n in given && HasKind(given[n], registered[n]) ==> vs[n] == given[n]
  {
    map n | n in registered ::
      if n in given && HasKind(given[n], registered[n]) then given[n] else Default(registered[n])
  }

  /** The resolved invocation handed to a handler. */
  datatype Cli = Cli(flags: map<string, FlagValue>, arguments: seq<string>, path: seq<Command>)
  {
    /** `Positional`: the index-th positional, or "" past the end. */
    function Positional(index: nat): (r: string)
      ensures index >= |arguments| ==> r == ""
      ensures index < |arguments| ==> r == arguments[index]
    {
      if index >= |arguments| then "" else arguments[index]
    }

    /** `String`: the value of a string flag, "" for an unknown name. The
        source's type assertion fails on a bool flag, so callers never ask. */
    function String(name: string): (r: string)
      requires name in flags ==> flags[name].StrValue?
      ensures name !in flags ==> r == ""
      ensures name in flags ==> r == flags[name].s
    {
      if name in flags then flags[name].s else ""
    }

    /** `Bool`: the value of a bool flag, false for an unknown name. */
    function Bool(name: string): (r: bool)
      requires name in flags ==> flags[name].BoolValue?
      ensures name !in flags ==> !r
      ensures name in flags ==> r == flags[name].b
    {
      name in flags && flags[name].b
    }
  }

  /** A flag the user did not pass reads as its default. */
  lemma UnsetFlagsReadDefault(registered: map<string, FlagKind>, given: map<string, FlagValue>,
                              args: seq<string>, path: seq<Command>, name: string)
    requires name !in given
    ensures var cli := Cli(FlagValues(registered, given), args, path);
      (name !in registered || registered[name] == StringKind ==> cli.String(name) == "") &&
      (name !in registered || registered[name] == BoolKind ==> !cli.Bool(name))
  {
  }
}
