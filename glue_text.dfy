/**
 * Text building shared by both glue generators: the argument lists they write with `write!`
 * in `for` loops, each specified by a function over the arguments, and the occurrence count
 * behind overload renaming.
 */
module GlueText {
  import opened Clang

  predicate StartsWith(s: string, prefix: string) {
    |prefix| <= |s| && s[..|prefix|] == prefix
  }

  /** How many entries of `s` equal `x`. */
  function Count(s: seq<string>, x: string): (n: nat)
    ensures n <= |s|
    ensures n == 0 <==> x !in s
    decreases |s|
  {
    if s == [] then 0
    else
      assert s == s[..|s| - 1] + [s[|s| - 1]];
      Count(s[..|s| - 1], x) + (if s[|s| - 1] == x then 1 else 0)
  }

  /** `names.iter().filter(|n| **n == x).count()` */
  method CountOccurrences(names: seq<string>, x: string) returns (n: nat)
    ensures n == Count(names, x)
  {
    n := 0;
    var i := 0;
    while i < |names|
      invariant 0 <= i <= |names|
      invariant n == Count(names[..i], x)
    {
      assert names[..i + 1][..i] == names[..i];
      if names[i] == x {
        n := n + 1;
      }
      i := i + 1;
    }
    assert names[..|names|] == names;
  }

  /** `, {type} {name}` for each argument. */
  function ArgDecls(args: seq<Argument>): string
    decreases |args|
  {
    if args == [] then ""
    else ArgDecls(args[..|args| - 1]) + ", " + args[|args| - 1].typ + " " + args[|args| - 1].name
  }

  /** `, {type}` for each argument. */
  function ArgTypes(args: seq<Argument>): string
    decreases |args|
  {
    if args == [] then "" else ArgTypes(args[..|args| - 1]) + ", " + args[|args| - 1].typ
  }

  /** `, {name}` for each argument. */
  function ArgNames(args: seq<Argument>): string
    decreases |args|
  {
    if args == [] then "" else ArgNames(args[..|args| - 1]) + ", " + args[|args| - 1].name
  }

  /** The argument names separated by `, `. */
  function JoinNames(args: seq<Argument>): string
    decreases |args|
  {
    if args == [] then ""
    else if |args| == 1 then args[0].name
    else JoinNames(args[..|args| - 1]) + ", " + args[|args| - 1].name
  }

  /** `{type} {name}` for each argument, separated by `, `. */
  function JoinTypedArgs(args: seq<Argument>): string
    decreases |args|
  {
    if args == [] then ""
    else if |args| == 1 then args[0].typ + " " + args[0].name
    else JoinTypedArgs(args[..|args| - 1]) + ", " + args[|args| - 1].typ + " " + args[|args| - 1].name
  }

  /**
   * The separator-joined list and the comma-led list name the same arguments in the same
   * order: a forwarded call passes exactly what was declared.
   */
  lemma {:induction false} JoinNamesIsArgNames(args: seq<Argument>)
    ensures args == [] ==> JoinNames(args) == "" && ArgNames(args) == ""
    ensures args != [] ==> ", " + JoinNames(args) == ArgNames(args)
    decreases |args|
  {
    if |args| > 1 {
      var init := args[..|args| - 1];
      JoinNamesIsArgNames(init);
      assert ", " + JoinNames(args) == (", " + JoinNames(init)) + ", " + args[|args| - 1].name;
    } else if |args| == 1 {
      assert args[..0] == [];
    }
  }

  /** Likewise for the typed parameter list and the comma-led declarations. */
  lemma {:induction false} JoinTypedArgsIsArgDecls(args: seq<Argument>)
    ensures args == [] ==> JoinTypedArgs(args) == "" && ArgDecls(args) == ""
    ensures args != [] ==> ", " + JoinTypedArgs(args) == ArgDecls(args)
    decreases |args|
  {
    if |args| > 1 {
      var init := args[..|args| - 1];
      var last := args[|args| - 1];
      JoinTypedArgsIsArgDecls(init);
      assert ", " + JoinTypedArgs(args) == (", " + JoinTypedArgs(init)) + ", " + last.typ + " " + last.name;
    } else if |args| == 1 {
      assert args[..0] == [];
    }
  }

  method AppendArgDecls(s: string, args: seq<Argument>) returns (r: string)
    ensures r == s + ArgDecls(args)
  {
    r := s;
    var i := 0;
    while i < |args|
      invariant 0 <= i <= |args|
      invariant r == s + ArgDecls(args[..i])
    {
      assert args[..i + 1][..i] == args[..i];
      r := r + ", " + args[i].typ + " " + args[i].name;
      i := i + 1;
    }
    assert args[..|args|] == args;
  }

  method AppendArgTypes(s: string, args: seq<Argument>) returns (r: string)
    ensures r == s + ArgTypes(args)
  {
    r := s;
    var i := 0;
    while i < |args|
      invariant 0 <= i <= |args|
      invariant r == s + ArgTypes(args[..i])
    {
      assert args[..i + 1][..i] == args[..i];
      r := r + ", " + args[i].typ;
      i := i + 1;
    }
    assert args[..|args|] == args;
  }

  method AppendArgNames(s: string, args: seq<Argument>) returns (r: string)
    ensures r == s + ArgNames(args)
  {
    r := s;
    var i := 0;
    while i < |args|
      invariant 0 <= i <= |args|
      invariant r == s + ArgNames(args[..i])
    {
      assert args[..i + 1][..i] == args[..i];
      r := r + ", " + args[i].name;
      i := i + 1;
    }
    assert args[..|args|] == args;
  }

  /** The loop with `arg_separator`: nothing before the first name, `, ` before each later one. */
  method AppendJoinedNames(s: string, args: seq<Argument>) returns (r: string)
    ensures r == s + JoinNames(args)
  {
    r := s;
    var separator := "";
    var i := 0;
    while i < |args|
      invariant 0 <= i <= |args|
      invariant r == s + JoinNames(args[..i])
      invariant separator == if i == 0 then "" else ", "
    {
      assert args[..i + 1][..i] == args[..i];
      r := r + separator + args[i].name;
      separator := ", ";
      i := i + 1;
    }
    assert args[..|args|] == args;
  }

  method AppendJoinedTypedArgs(s: string, args: seq<Argument>) returns (r: string)
    ensures r == s + JoinTypedArgs(args)
  {
    r := s;
    var separator := "";
    var i := 0;
    while i < |args|
      invariant 0 <= i <= |args|
      invariant r == s + JoinTypedArgs(args[..i])
      invariant separator == if i == 0 then "" else ", "
    {
      assert args[..i + 1][..i] == args[..i];
      r := r + separator + args[i].typ + " " + args[i].name;
      separator := ", ";
      i := i + 1;
    }
    assert args[..|args|] == args;
  }

  /** A forwarding function to write: its glue name and the method it forwards to. */
  datatype Forward = Forward(glue: string, member: Entity)

  lemma {:induction false} CountPrefixGrows(names: seq<string>, i: nat, j: nat)
    requires i < j <= |names|
    ensures Count(names[..j], names[i]) >= Count(names[..i], names[i]) + 1
    decreases j - i
  {
    if j == i + 1 {
      assert names[..j][..i] == names[..i];
    } else {
      CountPrefixGrows(names, i, j - 1);
      assert names[..j][..j - 1] == names[..j - 1];
    }
  }

  /** The virtual methods among `ms`, in order. */
  function VirtualMethods(ms: seq<Entity>): (vs: seq<Entity>)
    ensures |vs| <= |ms|
    decreases |ms|
  {
    if ms == [] then []
    else
      var m := ms[|ms| - 1];
      VirtualMethods(ms[..|ms| - 1]) + if m.kind == Method && m.isVirtual then [m] else []
  }

  function Names(ms: seq<Entity>): (names: seq<string>)
    ensures |names| == |ms|
    decreases |ms|
  {
    if ms == [] then [] else Names(ms[..|ms| - 1]) + [ms[|ms| - 1].name]
  }

  lemma {:induction false} NamesPrefix(ms: seq<Entity>, i: nat)
    requires i <= |ms|
    ensures Names(ms[..i]) == Names(ms)[..i]
    ensures i < |ms| ==> Names(ms)[i] == ms[i].name
    decreases |ms|
  {
    if i == |ms| {
      assert ms[..i] == ms;
    } else {
      var init := ms[..|ms| - 1];
      if i < |init| {
        NamesPrefix(init, i);
        assert init[..i] == ms[..i];
      }
    }
  }

}
