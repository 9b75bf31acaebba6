/**
 * `glue-generator/src/main.rs`: the first, printing version of the glue generator. For the
 * `ZOOMSDK` namespaces declared in `auth_service_interface.h` it prints, class by class, a
 * `Visit class` line and the declaration and definition of one forwarding function per virtual
 * method, with every overload name suffixed by its occurrence count.
 */
module GlueMain {
  import opened Prelude
  import opened Clang
  import opened Decimal
  import opened GlueText

  /* ---------- Overload renaming ---------- */

  /**
   * The glue name of a method seen `k` times before in its class: the count `rename` computes
   * includes the name just pushed, so it is `k + 1` and every name gets a suffix, starting at `1`.
   */
  function MainGlueName(name: string, k: nat): string {
    name + NatToDecimal(k + 1)
  }

  /** Different counts give different glue names for the same method name. */
  lemma MainGlueNameInjective(name: string, k1: nat, k2: nat)
    ensures MainGlueName(name, k1) == MainGlueName(name, k2) <==> k1 == k2
  {
    var n1, n2 := k1 + 1, k2 + 1;
    var a, b := NatToDecimal(n1), NatToDecimal(n2);
    if name + a == name + b {
      assert a == (name + a)[|name|..];
      assert b == (name + b)[|name|..];
      NatToDecimalRoundTrip(n1);
      NatToDecimalRoundTrip(n2);
    }
  }

  /** `rename`: push the name, count its occurrences, and append the count, which is never zero. */
  method Rename(name: string, namesSeen: seq<string>) returns (cppName: string, glueName: string, seen: seq<string>)
    ensures seen == namesSeen + [name]
    ensures cppName == name
    ensures glueName == MainGlueName(name, Count(namesSeen, name))
    ensures glueName != name
  {
    seen := namesSeen + [name];
    cppName := name;
    assert seen[..|seen| - 1] == namesSeen;
    var timesSeen := CountOccurrences(seen, name);
    glueName := name;
    if timesSeen > 0 {
      glueName := name + NatToDecimal(timesSeen);
    }
  }

  /** Two occurrences of one method name in a class never get the same glue name. */
  lemma MainOverloadGlueNamesDistinct(names: seq<string>, i: nat, j: nat)
    requires i < j < |names| && names[i] == names[j]
    ensures MainGlueName(names[i], Count(names[..i], names[i])) != MainGlueName(names[j], Count(names[..j], names[j]))
  {
    CountPrefixGrows(names, i, j);
    MainGlueNameInjective(names[i], Count(names[..i], names[i]), Count(names[..j], names[j]));
  }

  /* ---------- Forwarding functions ---------- */

  /** The `format!` that opens a forwarding function, with the arguments appended. */
  function MainSignature(cls: string, glue: string, m: Entity): string {
    (if m.isConst then "const " else "") + m.resultType + " ZoomSdkGlue_" + cls + "_" + glue + "(" + cls + " *self" + ArgDecls(m.arguments)
  }

  function MainDeclaration(cls: string, glue: string, m: Entity): string {
    MainSignature(cls, glue, m) + ");"
  }

  function MainDefinition(cls: string, glue: string, cppName: string, m: Entity): string {
    MainSignature(cls, glue, m) + ") {\n    return self->" + cppName + "(" + JoinNames(m.arguments) + ");\n}"
  }

  /** For one method, glue names without `(` give different printed functions exactly when they differ. */
  lemma MainSignatureDeterminesGlueName(cls: string, g1: string, g2: string, m: Entity)
    requires '(' !in g1 && '(' !in g2
    ensures MainSignature(cls, g1, m) == MainSignature(cls, g2, m) <==> g1 == g2
  {
    var head := (if m.isConst then "const " else "") + m.resultType + " ZoomSdkGlue_" + cls + "_";
    var tail := "(" + cls + " *self" + ArgDecls(m.arguments);
    assert MainSignature(cls, g1, m) == head + g1 + tail;
    assert MainSignature(cls, g2, m) == head + g2 + tail;
    if MainSignature(cls, g1, m) == MainSignature(cls, g2, m) && |g1| == |g2| {
      forall k | 0 <= k < |g1|
        ensures g1[k] == g2[k]
      {
        assert (head + g1 + tail)[|head| + k] == g1[k];
        assert (head + g2 + tail)[|head| + k] == g2[k];
      }
    }
  }

  /* ---------- Visiting a class ---------- */

  /** The member kinds `visit_class` accepts; any other kind panics. */
  predicate MainAllowedKind(k: EntityKind) {
    k == Method || k == AccessSpecifier || k == Destructor
  }

  /** What visiting a class's members has produced so far, and the kind of the member that panicked, if any. */
  datatype MainVisit = MainVisit(forwards: seq<Forward>, seen: seq<string>, abort: Option<EntityKind>)

  /** One member: a forwarding function for a virtual method, nothing for any other accepted member. */
  function MainMemberStep(seen: seq<string>, m: Entity): MainVisit {
    if !MainAllowedKind(m.kind) then MainVisit([], seen, Some(m.kind))
    else if m.kind != Method || !m.isVirtual then MainVisit([], seen, None)
    else MainVisit([Forward(MainGlueName(m.name, Count(seen, m.name)), m)], seen + [m.name], None)
  }

  /** The members `ms` visited in order, stopping at the first panic. */
  function MainMembersFold(ms: seq<Entity>): MainVisit
    decreases |ms|
  {
    if ms == [] then MainVisit([], [], None)
    else
      var v := MainMembersFold(ms[..|ms| - 1]);
      if v.abort.Some? then v
      else
        var w := MainMemberStep(v.seen, ms[|ms| - 1]);
        w.(forwards := v.forwards + w.forwards)
  }

  /** The printed lines of the forwarding functions `fs`: declaration, then definition, for each. */
  function ForwardLines(cls: string, fs: seq<Forward>): (lines: seq<string>)
    ensures |lines| == 2 * |fs|
    decreases |fs|
  {
    if fs == [] then []
    else
      var f := fs[|fs| - 1];
      ForwardLines(cls, fs[..|fs| - 1]) + [MainDeclaration(cls, f.glue, f.member), MainDefinition(cls, f.glue, f.member.name, f.member)]
  }

  /** Lines printed to standard output, and the panic that ended them, if any. */
  datatype Printed = Printed(lines: seq<string>, abort: Option<EntityKind>)

  const NothingPrinted := Printed([], None)

  /** `a`, then `b` unless `a` panicked. */
  function ThenPrint(a: Printed, b: Printed): Printed {
    if a.abort.Some? then a else Printed(a.lines + b.lines, b.abort)
  }

  /** `visit_class` */
  function ClassPrinted(c: Entity): Printed {
    var v := MainMembersFold(c.children);
    Printed(["Visit class " + c.name] + ForwardLines(c.name, v.forwards), v.abort)
  }

  /** A class's members are visited without a panic exactly when every member's kind is accepted. */
  lemma {:induction false} MainMembersFoldOkIff(ms: seq<Entity>)
    ensures MainMembersFold(ms).abort.None? <==> forall i :: 0 <= i < |ms| ==> MainAllowedKind(ms[i].kind)
    decreases |ms|
  {
    if ms != [] {
      var init := ms[..|ms| - 1];
      MainMembersFoldOkIff(init);
      assert forall i :: 0 <= i < |init| ==> ms[i] == init[i];
      if MainMembersFold(init).abort.Some? {
        var i :| 0 <= i < |init| && !MainAllowedKind(init[i].kind);
        assert !MainAllowedKind(ms[i].kind);
      }
    }
  }

  /** Once a member panics, later members change nothing. */
  lemma {:induction false} MainMembersFoldAbortPersists(ms: seq<Entity>, n: nat)
    requires n <= |ms| && MainMembersFold(ms[..n]).abort.Some?
    ensures MainMembersFold(ms) == MainMembersFold(ms[..n])
    decreases |ms| - n
  {
    if n == |ms| {
      assert ms[..n] == ms;
    } else {
      var init := ms[..|ms| - 1];
      assert init[..n] == ms[..n];
      MainMembersFoldAbortPersists(init, n);
    }
  }

  /**
   * The forwarding functions for the virtual methods `vs`: each named by the number of times its
   * name occurs among the virtual methods before it, plus one.
   */
  function MainForwardsFor(vs: seq<Entity>): (fs: seq<Forward>)
    ensures |fs| == |vs|
    decreases |vs|
  {
    if vs == [] then []
    else
      var init := vs[..|vs| - 1];
      var m := vs[|vs| - 1];
      MainForwardsFor(init) + [Forward(MainGlueName(m.name, Count(Names(init), m.name)), m)]
  }

  /** The i-th forwarding function forwards to the i-th virtual method. */
  lemma {:induction false} MainForwardsForAt(vs: seq<Entity>, i: nat)
    requires i < |vs|
    ensures MainForwardsFor(vs)[i] == Forward(MainGlueName(vs[i].name, Count(Names(vs[..i]), vs[i].name)), vs[i])
    decreases |vs|
  {
    var init := vs[..|vs| - 1];
    if i < |init| {
      MainForwardsForAt(init, i);
      assert init[..i] == vs[..i];
    }
  }

  /** Two virtual methods of one class with the same name get different glue names. */
  lemma MainOverloadsGetDistinctGlueNames(vs: seq<Entity>, i: nat, j: nat)
    requires i < j < |vs| && vs[i].name == vs[j].name
    ensures MainForwardsFor(vs)[i].glue != MainForwardsFor(vs)[j].glue
  {
    MainForwardsForAt(vs, i);
    MainForwardsForAt(vs, j);
    NamesPrefix(vs, i);
    NamesPrefix(vs, j);
    MainOverloadGlueNamesDistinct(Names(vs), i, j);
  }

  lemma MainMemberStepShape(seen: seq<string>, m: Entity)
    ensures var w := MainMemberStep(seen, m);
      if m.kind == Method && m.isVirtual then
        w.forwards == [Forward(MainGlueName(m.name, Count(seen, m.name)), m)] && w.seen == seen + [m.name]
      else
        w.forwards == [] && w.seen == seen
  {
  }

  /**
   * Without a panic, a class's members produce one forwarding function per virtual method, in
   * order, and the names seen are the virtual methods' names.
   */
  lemma {:induction false} MainMembersFoldOutput(ms: seq<Entity>)
    requires MainMembersFold(ms).abort.None?
    ensures var v := MainMembersFold(ms); var vs := VirtualMethods(ms);
      v.seen == Names(vs) && v.forwards == MainForwardsFor(vs)
    decreases |ms|
  {
    if ms != [] {
      var init := ms[..|ms| - 1];
      var m := ms[|ms| - 1];
      var v0 := MainMembersFold(init);
      assert v0.abort.None?;
      MainMembersFoldOutput(init);
      MainMemberStepShape(v0.seen, m);
      var vs0 := VirtualMethods(init);
      var vs := VirtualMethods(ms);
      if m.kind == Method && m.isVirtual {
        assert vs == vs0 + [m];
        assert vs[..|vs| - 1] == vs0;
      } else {
        assert vs == vs0;
      }
    }
  }

  /** The (2k+1)-th and (2k+2)-th lines of a class are the declaration and definition of its k-th forwarding function. */
  lemma {:induction false} ForwardLinesAt(cls: string, fs: seq<Forward>, k: nat)
    requires k < |fs|
    ensures ForwardLines(cls, fs)[2 * k] == MainDeclaration(cls, fs[k].glue, fs[k].member)
    ensures ForwardLines(cls, fs)[2 * k + 1] == MainDefinition(cls, fs[k].glue, fs[k].member.name, fs[k].member)
    decreases |fs|
  {
    if k < |fs| - 1 {
      ForwardLinesAt(cls, fs[..|fs| - 1], k);
    }
  }

  /** Without a panic, a class prints its `Visit class` line and then two lines per virtual method. */
  lemma ClassPrintedLines(c: Entity)
    requires ClassPrinted(c).abort.None?
    ensures |ClassPrinted(c).lines| == 1 + 2 * |VirtualMethods(c.children)|
    ensures ClassPrinted(c).lines[0] == "Visit class " + c.name
  {
    MainMembersFoldOutput(c.children);
  }

  /** The k-th virtual method's declaration and definition follow the `Visit class` line, in method order. */
  lemma ClassPrintedForward(c: Entity, k: nat)
    requires ClassPrinted(c).abort.None? && k < |VirtualMethods(c.children)|
    ensures var vs := VirtualMethods(c.children); var f := MainForwardsFor(vs)[k];
      f.member == vs[k] && 2 + 2 * k < |ClassPrinted(c).lines| &&
      ClassPrinted(c).lines[1 + 2 * k] == MainDeclaration(c.name, f.glue, vs[k]) &&
      ClassPrinted(c).lines[2 + 2 * k] == MainDefinition(c.name, f.glue, vs[k].name, vs[k])
  {
    var vs := VirtualMethods(c.children);
    MainMembersFoldOutput(c.children);
    var fs := MainForwardsFor(vs);
    var head := ["Visit class " + c.name];
    var body := ForwardLines(c.name, fs);
    assert ClassPrinted(c).lines == head + body;
    MainForwardsForAt(vs, k);
    ForwardLinesAt(c.name, fs, k);
    IndexAfter(head, body, 2 * k);
    IndexAfter(head, body, 2 * k + 1);
    var lines := ClassPrinted(c).lines;
    assert |head| == 1;
    assert lines[1 + 2 * k] == body[2 * k] && lines[2 + 2 * k] == body[2 * k + 1];
    var f := fs[k];
    assert f.member == vs[k];
    assert lines[1 + 2 * k] == MainDeclaration(c.name, f.glue, vs[k]);
    assert lines[2 + 2 * k] == MainDefinition(c.name, f.glue, vs[k].name, vs[k]);
  }

  lemma IndexAfter<T>(head: seq<T>, body: seq<T>, i: nat)
    requires i < |body|
    ensures (head + body)[|head| + i] == body[i]
  {
  }

  /* ---------- Visiting namespaces and the translation unit ---------- */

  /** The classes among `cs` that have members, visited in order. */
  function ClassesPrinted(cs: seq<Entity>): Printed
    decreases |cs|
  {
    if cs == [] then NothingPrinted
    else
      var o := ClassesPrinted(cs[..|cs| - 1]);
      var c := cs[|cs| - 1];
      if c.kind == ClassDecl && |c.children| > 0 then ThenPrint(o, ClassPrinted(c)) else o
  }

  /** `visit_namespace` */
  function NamespacePrinted(ns: Entity): Printed {
    ClassesPrinted(ns.children)
  }

  predicate IsSeparator(ch: char) {
    ch == '/' || ch == '\\'
  }

  /** The path without its trailing separators. */
  function TrimSeparators(p: string): string
    decreases |p|
  {
    if p != [] && IsSeparator(p[|p| - 1]) then TrimSeparators(p[..|p| - 1]) else p
  }

  /** What trimming removes is a run of separators at the end, and what it keeps does not end in one. */
  lemma {:induction false} TrimSeparatorsSpec(p: string)
    ensures var r := TrimSeparators(p);
      |r| <= |p| && r == p[..|r|] && (r == [] || !IsSeparator(r[|r| - 1])) &&
      forall k :: |r| <= k < |p| ==> IsSeparator(p[k])
    decreases |p|
  {
    if p != [] && IsSeparator(p[|p| - 1]) {
      var init := p[..|p| - 1];
      TrimSeparatorsSpec(init);
      var r := TrimSeparators(init);
      assert init[..|r|] == p[..|r|];
    }
  }

  /** The text after the last separator. */
  function LastComponent(p: string): string
    decreases |p|
  {
    if p == [] || IsSeparator(p[|p| - 1]) then [] else LastComponent(p[..|p| - 1]) + [p[|p| - 1]]
  }

  /** The last component is a separator-free suffix of the path that a separator, or the start, precedes. */
  lemma {:induction false} LastComponentSpec(p: string)
    ensures var r := LastComponent(p);
      |r| <= |p| && r == p[|p| - |r|..] &&
      (forall k :: 0 <= k < |r| ==> !IsSeparator(r[k])) &&
      (|r| < |p| ==> IsSeparator(p[|p| - |r| - 1]))
    decreases |p|
  {
    if p != [] && !IsSeparator(p[|p| - 1]) {
      var init := p[..|p| - 1];
      LastComponentSpec(init);
      var r0 := LastComponent(init);
      assert init[|init| - |r0|..] + [p[|p| - 1]] == p[|p| - |r0| - 1..];
      var r := r0 + [p[|p| - 1]];
      assert LastComponent(p) == r;
      assert r == p[|p| - |r|..];
      forall k | 0 <= k < |r|
        ensures !IsSeparator(r[k])
      {
        if k < |r0| {
          assert r[k] == r0[k];
        }
      }
      if |r| < |p| {
        assert p[|p| - |r| - 1] == init[|init| - |r0| - 1];
      }
    }
  }

  /** A file name after a directory and a separator is the path's last component. */
  lemma {:induction false} LastComponentOfJoin(dir: string, sep: char, name: string)
    requires IsSeparator(sep) && forall k :: 0 <= k < |name| ==> !IsSeparator(name[k])
    ensures LastComponent(dir + [sep] + name) == name
    decreases |name|
  {
    if name == [] {
      assert dir + [sep] + name == dir + [sep];
    } else {
      var init := name[..|name| - 1];
      LastComponentOfJoin(dir, sep, init);
      assert (dir + [sep] + name)[..|dir + [sep] + name| - 1] == dir + [sep] + init;
    }
  }

  /** `Path::ends_with` with a one-component argument: the path's last component is that name. */
  predicate EndsWithComponent(path: string, name: string) {
    LastComponent(TrimSeparators(path)) == name
  }

  /** The one header whose namespaces `main` visits. */
  const AuthHeader := "auth_service_interface.h"

  /** A `ZOOMSDK` namespace whose location is in `auth_service_interface.h`. */
  predicate IsAuthNamespace(e: Entity) {
    e.kind == Namespace && e.name == "ZOOMSDK" && e.file.Some? && EndsWithComponent(e.file.value, AuthHeader)
  }

  /** `main`'s loop over the top-level children of the translation unit. */
  function NamespacesPrinted(cs: seq<Entity>): Printed
    decreases |cs|
  {
    if cs == [] then NothingPrinted
    else
      var o := NamespacesPrinted(cs[..|cs| - 1]);
      var e := cs[|cs| - 1];
      if IsAuthNamespace(e) then ThenPrint(o, NamespacePrinted(e)) else o
  }

  function UnitPrinted(tu: Entity): Printed {
    NamespacesPrinted(tu.children)
  }

  /** The top-level children that `main` visits, in order. */
  function AuthNamespaces(cs: seq<Entity>): (ns: seq<Entity>)
    ensures |ns| <= |cs|
    ensures forall k :: 0 <= k < |ns| ==> IsAuthNamespace(ns[k])
    decreases |cs|
  {
    if cs == [] then []
    else AuthNamespaces(cs[..|cs| - 1]) + if IsAuthNamespace(cs[|cs| - 1]) then [cs[|cs| - 1]] else []
  }

  /** Every namespace of `ns` visited in order, whatever its name or file. */
  function AllNamespacesPrinted(ns: seq<Entity>): Printed
    decreases |ns|
  {
    if ns == [] then NothingPrinted else ThenPrint(AllNamespacesPrinted(ns[..|ns| - 1]), NamespacePrinted(ns[|ns| - 1]))
  }

  /** What `main` prints is what visiting exactly the `ZOOMSDK` namespaces of `auth_service_interface.h` prints. */
  lemma {:induction false} NamespacesPrintedIsFiltered(cs: seq<Entity>)
    ensures NamespacesPrinted(cs) == AllNamespacesPrinted(AuthNamespaces(cs))
    decreases |cs|
  {
    if cs != [] {
      var init := cs[..|cs| - 1];
      var e := cs[|cs| - 1];
      NamespacesPrintedIsFiltered(init);
      var ns := AuthNamespaces(init);
      if IsAuthNamespace(e) {
        assert AuthNamespaces(cs) == ns + [e];
        assert (ns + [e])[..|ns|] == ns;
      } else {
        assert AuthNamespaces(cs) == ns;
      }
    }
  }

  /* ---------- Step lemmas for the printing loops ---------- */

  /** One more member: the fold goes on from where the members before it left off. */
  lemma MainMembersFoldStep(ms: seq<Entity>, i: nat)
    requires i < |ms| && MainMembersFold(ms[..i]).abort.None?
    ensures var v := MainMembersFold(ms[..i]); var w := MainMemberStep(v.seen, ms[i]);
      MainMembersFold(ms[..i + 1]) == w.(forwards := v.forwards + w.forwards) && |w.forwards| <= 1
  {
    assert ms[..i + 1][..i] == ms[..i];
    var v := MainMembersFold(ms[..i]);
    MainMemberStepShape(v.seen, ms[i]);
  }

  /** The lines of one more forwarding function (or none) come after the lines of the ones before it. */
  lemma ForwardLinesConcat(cls: string, fs: seq<Forward>, gs: seq<Forward>)
    requires |gs| <= 1
    ensures ForwardLines(cls, fs + gs) == ForwardLines(cls, fs) + ForwardLines(cls, gs)
  {
    if gs == [] {
      assert fs + gs == fs;
    } else {
      var f := gs[0];
      assert gs == [f];
      assert (fs + gs)[..|fs|] == fs;
      assert ([] + gs)[..0] == [];
      assert ForwardLines(cls, gs) == [MainDeclaration(cls, f.glue, f.member), MainDefinition(cls, f.glue, f.member.name, f.member)];
    }
  }

  lemma LinesAssoc(a: seq<string>, b: seq<string>, c: seq<string>)
    ensures a + b + c == a + (b + c)
  {
  }

  /** One more member in the loop of `visit_class`: lines, names seen and panic agree with `MainMembersFold`. */
  lemma MainMembersVisitStep(cls: string, ms: seq<Entity>, i: nat, lines0: seq<string>, lines1: seq<string>, lines: seq<string>,
                             seen: seq<string>, a: Option<EntityKind>)
    requires i < |ms|
    requires var v := MainMembersFold(ms[..i]); v.abort.None? && lines1 == lines0 + ForwardLines(cls, v.forwards)
    requires var v := MainMembersFold(ms[..i]); var w := MainMemberStep(v.seen, ms[i]);
      lines == lines1 + ForwardLines(cls, w.forwards) && seen == w.seen && a == w.abort
    ensures a.None? ==> var u := MainMembersFold(ms[..i + 1]);
      u.abort.None? && seen == u.seen && lines == lines0 + ForwardLines(cls, u.forwards)
    ensures a.Some? ==> var u := MainMembersFold(ms); lines == lines0 + ForwardLines(cls, u.forwards) && a == u.abort
  {
    var v := MainMembersFold(ms[..i]);
    var w := MainMemberStep(v.seen, ms[i]);
    MainMembersFoldStep(ms, i);
    ForwardLinesConcat(cls, v.forwards, w.forwards);
    LinesAssoc(lines0, ForwardLines(cls, v.forwards), ForwardLines(cls, w.forwards));
    if a.Some? {
      MainMembersFoldAbortPersists(ms, i + 1);
    }
  }

  /** Lines that got `a`'s and then `b`'s are what `ThenPrint(a, b)` prints. */
  lemma PrintThen(lines0: seq<string>, lines1: seq<string>, lines: seq<string>, a: Printed, b: Printed)
    requires a.abort.None? && lines1 == lines0 + a.lines && lines == lines1 + b.lines
    ensures var o := ThenPrint(a, b); lines == lines0 + o.lines && o.abort == b.abort
  {
    LinesAssoc(lines0, a.lines, b.lines);
  }

  lemma {:induction false} ClassesPrintedAbortPersists(cs: seq<Entity>, n: nat)
    requires n <= |cs| && ClassesPrinted(cs[..n]).abort.Some?
    ensures ClassesPrinted(cs) == ClassesPrinted(cs[..n])
    decreases |cs| - n
  {
    if n == |cs| {
      assert cs[..n] == cs;
    } else {
      var init := cs[..|cs| - 1];
      assert init[..n] == cs[..n];
      ClassesPrintedAbortPersists(init, n);
    }
  }

  lemma {:induction false} NamespacesPrintedAbortPersists(cs: seq<Entity>, n: nat)
    requires n <= |cs| && NamespacesPrinted(cs[..n]).abort.Some?
    ensures NamespacesPrinted(cs) == NamespacesPrinted(cs[..n])
    decreases |cs| - n
  {
    if n == |cs| {
      assert cs[..n] == cs;
    } else {
      var init := cs[..|cs| - 1];
      assert init[..n] == cs[..n];
      NamespacesPrintedAbortPersists(init, n);
    }
  }

  lemma ClassesPrintedStep(cs: seq<Entity>, i: nat)
    requires i < |cs|
    ensures ClassesPrinted(cs[..i + 1]) ==
      if cs[i].kind == ClassDecl && |cs[i].children| > 0 then ThenPrint(ClassesPrinted(cs[..i]), ClassPrinted(cs[i])) else ClassesPrinted(cs[..i])
  {
    assert cs[..i + 1][..i] == cs[..i];
  }

  lemma NamespacesPrintedStep(cs: seq<Entity>, i: nat)
    requires i < |cs|
    ensures NamespacesPrinted(cs[..i + 1]) ==
      if IsAuthNamespace(cs[i]) then ThenPrint(NamespacesPrinted(cs[..i]), NamespacePrinted(cs[i])) else NamespacesPrinted(cs[..i])
  {
    assert cs[..i + 1][..i] == cs[..i];
  }

  /** One more class in `visit_namespace`: lines and panic after it agree with `ClassesPrinted`. */
  lemma ClassesVisitStep(cs: seq<Entity>, i: nat, lines0: seq<string>, lines1: seq<string>, lines: seq<string>, a: Option<EntityKind>)
    requires i < |cs|
    requires var o := ClassesPrinted(cs[..i]); o.abort.None? && lines1 == lines0 + o.lines
    requires var c := cs[i];
      if c.kind == ClassDecl && |c.children| > 0 then lines == lines1 + ClassPrinted(c).lines && a == ClassPrinted(c).abort
      else lines == lines1 && a.None?
    ensures a.None? ==> var o := ClassesPrinted(cs[..i + 1]); o.abort.None? && lines == lines0 + o.lines
    ensures a.Some? ==> var o := ClassesPrinted(cs); lines == lines0 + o.lines && a == o.abort
  {
    ClassesPrintedStep(cs, i);
    var c := cs[i];
    if c.kind == ClassDecl && |c.children| > 0 {
      PrintThen(lines0, lines1, lines, ClassesPrinted(cs[..i]), ClassPrinted(c));
      if a.Some? {
        ClassesPrintedAbortPersists(cs, i + 1);
      }
    }
  }

  /**
   * One more top-level child in `main`: lines and panic after it agree with `NamespacesPrinted`.
   * `visit` says whether the child was visited; the caller ties it to `IsAuthNamespace` through
   * `NamespacesPrintedStep`.
   */
  lemma NamespacesVisitStep(cs: seq<Entity>, i: nat, visit: bool, lines0: seq<string>, lines1: seq<string>, lines: seq<string>, a: Option<EntityKind>)
    requires i < |cs|
    requires NamespacesPrinted(cs[..i + 1]) ==
      if visit then ThenPrint(NamespacesPrinted(cs[..i]), NamespacePrinted(cs[i])) else NamespacesPrinted(cs[..i])
    requires var o := NamespacesPrinted(cs[..i]); o.abort.None? && lines1 == lines0 + o.lines
    requires if visit then lines == lines1 + NamespacePrinted(cs[i]).lines && a == NamespacePrinted(cs[i]).abort
      else lines == lines1 && a.None?
    ensures var o := NamespacesPrinted(cs[..i + 1]); lines == lines0 + o.lines && a == o.abort
  {
    if visit {
      PrintThen(lines0, lines1, lines, NamespacesPrinted(cs[..i]), NamespacePrinted(cs[i]));
    }
  }

  /* ---------- The printing generator ---------- */

  /** Standard output, as the lines printed to it in order. */
  class Console {
    var lines: seq<string>

    constructor ()
      ensures lines == []
    {
      lines := [];
    }

    /** `println!`: one more line. */
    method PrintLine(line: string)
      modifies this
      ensures lines == old(lines) + [line]
    {
      lines := lines + [line];
    }
  }

  /** The declaration and definition of one forwarding function, built and printed as `visit_class` does. */
  method PrintForward(out: Console, cls: string, glueName: string, cppName: string, m: Entity)
    modifies out
    ensures out.lines == old(out.lines) + [MainDeclaration(cls, glueName, m), MainDefinition(cls, glueName, cppName, m)]
  {
    var constQualifier := if m.isConst then "const " else "";
    var signature := constQualifier + m.resultType + " ZoomSdkGlue_" + cls + "_" + glueName + "(" + cls + " *self";
    signature := AppendArgDecls(signature, m.arguments);
    var definition := signature;
    signature := signature + ");";
    var declaration := signature;
    definition := definition + ") {\n    return self->" + cppName + "(";
    definition := AppendJoinedNames(definition, m.arguments);
    definition := definition + ");\n}";
    out.PrintLine(declaration);
    out.PrintLine(definition);
  }

  /** One member of the loop in `visit_class`. */
  method VisitMember(out: Console, cls: string, namesSeen: seq<string>, m: Entity) returns (seen: seq<string>, abort: Option<EntityKind>)
    modifies out
    ensures var w := MainMemberStep(namesSeen, m);
      out.lines == old(out.lines) + ForwardLines(cls, w.forwards) && seen == w.seen && abort == w.abort
  {
    seen, abort := namesSeen, None;
    match m.kind {
      case Method =>
      case AccessSpecifier => return;
      case Destructor => return;
      case _ =>
        abort := Some(m.kind);
        return;
    }
    if !m.isVirtual {
      return;
    }
    var cppName, glueName;
    cppName, glueName, seen := Rename(m.name, namesSeen);
    PrintForward(out, cls, glueName, cppName, m);
    assert ForwardLines(cls, [Forward(glueName, m)]) == [MainDeclaration(cls, glueName, m), MainDefinition(cls, glueName, cppName, m)];
  }

  /** The loop of `visit_class` over the members `ms` of class `cls`, up to the first panic. */
  method VisitMembers(out: Console, cls: string, ms: seq<Entity>) returns (abort: Option<EntityKind>)
    modifies out
    ensures var v := MainMembersFold(ms); out.lines == old(out.lines) + ForwardLines(cls, v.forwards) && abort == v.abort
  {
    var seen: seq<string> := [];
    assert ms[..0] == [];
    var i := 0;
    while i < |ms|
      invariant 0 <= i <= |ms|
      invariant var v := MainMembersFold(ms[..i]);
        v.abort.None? && seen == v.seen && out.lines == old(out.lines) + ForwardLines(cls, v.forwards)
    {
      ghost var lines1 := out.lines;
      var a;
      seen, a := VisitMember(out, cls, seen, ms[i]);
      MainMembersVisitStep(cls, ms, i, old(out.lines), lines1, out.lines, seen, a);
      if a.Some? {
        return a;
      }
      i := i + 1;
    }
    assert ms[..|ms|] == ms;
    return None;
  }

  /** `visit_class` */
  method VisitClass(out: Console, c: Entity) returns (abort: Option<EntityKind>)
    modifies out
    ensures var o := ClassPrinted(c); out.lines == old(out.lines) + o.lines && abort == o.abort
  {
    out.PrintLine("Visit class " + c.name);
    ghost var lines1 := out.lines;
    abort := VisitMembers(out, c.name, c.children);
    LinesAssoc(old(out.lines), ["Visit class " + c.name], ForwardLines(c.name, MainMembersFold(c.children).forwards));
  }

  /** `visit_namespace`: every class that has members. */
  method VisitNamespace(out: Console, ns: Entity) returns (abort: Option<EntityKind>)
    modifies out
    ensures var o := NamespacePrinted(ns); out.lines == old(out.lines) + o.lines && abort == o.abort
  {
    var cs := ns.children;
    assert cs[..0] == [];
    var i := 0;
    while i < |cs|
      invariant 0 <= i <= |cs|
      invariant var o := ClassesPrinted(cs[..i]); o.abort.None? && out.lines == old(out.lines) + o.lines
    {
      var c := cs[i];
      ghost var lines1 := out.lines;
      var a: Option<EntityKind> := None;
      if c.kind == ClassDecl && |c.children| > 0 {
        a := VisitClass(out, c);
      }
      ClassesVisitStep(cs, i, old(out.lines), lines1, out.lines, a);
      if a.Some? {
        return a;
      }
      i := i + 1;
    }
    assert cs[..|cs|] == cs;
    return None;
  }

  /**
   * `main`, from the parsed translation unit on: every top-level `ZOOMSDK` namespace located in
   * `auth_service_interface.h` is visited, in order.
   */
  method VisitTranslationUnit(out: Console, tu: Entity) returns (abort: Option<EntityKind>)
    modifies out
    ensures var o := UnitPrinted(tu); out.lines == old(out.lines) + o.lines && abort == o.abort
  {
    var cs := tu.children;
    assert cs[..0] == [];
    var i := 0;
    while i < |cs|
      invariant 0 <= i <= |cs|
      invariant var o := NamespacesPrinted(cs[..i]); o.abort.None? && out.lines == old(out.lines) + o.lines
    {
      var e := cs[i];
      ghost var lines1 := out.lines;
      var a: Option<EntityKind> := None;
      var visit := e.kind == Namespace && e.name == "ZOOMSDK" && e.file.Some? && EndsWithComponent(e.file.value, AuthHeader);
      if visit {
        a := VisitNamespace(out, e);
      }
      NamespacesPrintedStep(cs, i);
      NamespacesVisitStep(cs, i, visit, old(out.lines), lines1, out.lines, a);
      if a.Some? {
        NamespacesPrintedAbortPersists(cs, i + 1);
        return a;
      }
      i := i + 1;
    }
    assert cs[..|cs|] == cs;
    return None;
  }
}
