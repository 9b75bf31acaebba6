/**
 * `glue-generator/src/lib.rs`: the generator of the C++ glue the Rust wrapper links against.
 * For every virtual method of every class in namespace `ZOOMSDK` it writes a free forwarding
 * function (declaration to `generated.hpp`, definition to `generated.cpp`); for every event
 * interface it also writes an adapter class that forwards each callback to a function pointer;
 * and for every `tag*` struct that a typedef follows, a function returning a default value.
 */
module Glue {
  import opened Prelude
  import opened Clang
  import opened Decimal
  import opened GlueText

  const CRLF := "\r\n"
  const Notice := "// Programmatically generated, do not edit by hand"
  const HppPreamble := Notice + "\r\n#pragma once\r\n#include \"prelude.hpp\"\r\nusing namespace ZOOMSDK;\r\n"
  const CppPreamble := Notice + "\r\n#include \"generated.hpp\"\r\n"

  /** Why the generator panics. */
  datatype Abort =
    | UnexpectedKind(kind: EntityKind)
    | EventMethodNotOn(name: string)
    | EventMethodNotVoid(name: string)
    | TagStructIsLast(name: string)

  /* ---------- Overload renaming ---------- */

  /** The glue name of a method already seen `k` times in its class: bare the first time, then with `k` appended. */
  function GlueName(name: string, k: nat): string {
    if k == 0 then name else name + NatToDecimal(k)
  }

  /** Different counts give different glue names for the same method name. */
  lemma GlueNameInjective(name: string, k1: nat, k2: nat)
    ensures GlueName(name, k1) == GlueName(name, k2) <==> k1 == k2
  {
    if GlueName(name, k1) == GlueName(name, k2) && k1 > 0 && k2 > 0 {
      var a, b := NatToDecimal(k1), NatToDecimal(k2);
      assert (name + a)[|name|..] == a;
      assert (name + b)[|name|..] == b;
      NatToDecimalRoundTrip(k1);
      NatToDecimalRoundTrip(k2);
    }
  }

  /** `rename_overloads`: push the name, count its occurrences, and suffix the count less one when positive. */
  method RenameOverloads(name: string, namesSeen: seq<string>) returns (cppName: string, glueName: string, seen: seq<string>)
    ensures seen == namesSeen + [name]
    ensures cppName == name
    ensures glueName == GlueName(name, Count(namesSeen, name))
    ensures glueName == name <==> name !in namesSeen
  {
    seen := namesSeen + [name];
    cppName := name;
    assert seen[..|seen| - 1] == namesSeen;
    var timesSeen := CountOccurrences(seen, name);
    timesSeen := timesSeen - 1;
    glueName := name;
    if timesSeen > 0 {
      glueName := name + NatToDecimal(timesSeen);
    }
  }

  /** Two occurrences of one method name in a class never get the same glue name. */
  lemma OverloadGlueNamesDistinct(names: seq<string>, i: nat, j: nat)
    requires i < j < |names| && names[i] == names[j]
    ensures GlueName(names[i], Count(names[..i], names[i])) != GlueName(names[j], Count(names[..j], names[j]))
  {
    CountPrefixGrows(names, i, j);
    GlueNameInjective(names[i], Count(names[..i], names[i]), Count(names[..j], names[j]));
  }

  /* ---------- Forwarding functions ---------- */

  function ConstQualifier(m: Entity): string {
    if m.isConst then "const " else ""
  }

  /** What the declaration and the definition of a forwarding function share. */
  function Signature(cls: string, glue: string, m: Entity): string {
    m.resultType + " ZoomGlue_" + cls + "_" + glue + "(" + ConstQualifier(m) + " ZOOMSDK::" + cls + " *self" + ArgDecls(m.arguments)
  }

  function Declaration(cls: string, glue: string, m: Entity): string {
    match m.commentBrief
    case Some(c) => "/// " + c + "\r\n" + (Signature(cls, glue, m) + ");")
    case None => Signature(cls, glue, m) + ");"
  }

  function Definition(cls: string, glue: string, cppName: string, m: Entity): string {
    Signature(cls, glue, m) + ") {\r\n    return self->" + cppName + "(" + JoinNames(m.arguments) + ");\r\n}"
  }

  /**
   * The signature determines the glue name, as long as glue names hold no `(`: for one method,
   * different glue names give different C++ functions.
   */
  lemma SignatureDeterminesGlueName(cls: string, g1: string, g2: string, m: Entity)
    requires '(' !in g1 && '(' !in g2
    ensures Signature(cls, g1, m) == Signature(cls, g2, m) <==> g1 == g2
  {
    var head := m.resultType + " ZoomGlue_" + cls + "_";
    var tail := "(" + ConstQualifier(m) + " ZOOMSDK::" + cls + " *self" + ArgDecls(m.arguments);
    assert Signature(cls, g1, m) == head + g1 + tail;
    assert Signature(cls, g2, m) == head + g2 + tail;
    if Signature(cls, g1, m) == Signature(cls, g2, m) && |g1| == |g2| {
      forall k | 0 <= k < |g1|
        ensures g1[k] == g2[k]
      {
        assert (head + g1 + tail)[|head| + k] == g1[k];
        assert (head + g2 + tail)[|head| + k] == g2[k];
      }
    }
  }

  /* ---------- Event interfaces ---------- */

  /** `^(on|On).*` */
  predicate StartsWithOn(name: string) {
    StartsWith(name, "on") || StartsWith(name, "On")
  }

  /** Whether `Event` follows position `p` with no line break before it: `.*Event` matched at `p`. */
  function EventAhead(s: string, p: nat): (b: bool)
    ensures b ==> p + 5 <= |s|
    decreases |s| - p
  {
    if p + 5 > |s| then false
    else if s[p..p + 5] == "Event" then true
    else if s[p] == '\n' then false
    else EventAhead(s, p + 1)
  }

  /** Whether an `I` at position `i` or later starts a match of `I.*Event`. */
  function EventInterfaceFrom(s: string, i: nat): (b: bool)
    ensures b ==> |s| >= 6
    decreases |s| - i
  {
    if i >= |s| then false
    else (s[i] == 'I' && EventAhead(s, i + 1)) || EventInterfaceFrom(s, i + 1)
  }

  /** `Regex::new("I.*Event").is_match(s)`: the pattern is not anchored. */
  function IsEventInterface(s: string): (b: bool)
    ensures b ==> |s| >= 6
  {
    EventInterfaceFrom(s, 0)
  }

  /** `Event` at `j`, and no line break from `p` up to it. */
  ghost predicate EventAt(s: string, p: int, j: int) {
    0 <= p <= j && j + 5 <= |s| && s[j..j + 5] == "Event" && forall k :: p <= k < j ==> s[k] != '\n'
  }

  /** The pattern `I.*Event` matches `s[i..j + 5]`. */
  ghost predicate MatchesAt(s: string, i: int, j: int) {
    0 <= i < |s| && s[i] == 'I' && EventAt(s, i + 1, j)
  }

  lemma {:induction false} EventAheadCorrect(s: string, p: nat)
    ensures EventAhead(s, p) <==> exists j :: EventAt(s, p, j)
    decreases |s| - p
  {
    if p + 5 > |s| {
    } else if s[p..p + 5] == "Event" {
      assert EventAt(s, p, p);
    } else if s[p] == '\n' {
    } else {
      var q := p + 1;
      EventAheadCorrect(s, q);
      if j :| EventAt(s, p, j) {
        assert EventAt(s, q, j);
      }
      if j :| EventAt(s, q, j) {
        assert EventAt(s, p, j);
      }
    }
  }

  lemma {:induction false} EventInterfaceFromCorrect(s: string, i: nat)
    ensures EventInterfaceFrom(s, i) <==> exists a, j :: i <= a && MatchesAt(s, a, j)
    decreases |s| - i
  {
    if i < |s| {
      EventAheadCorrect(s, i + 1);
      EventInterfaceFromCorrect(s, i + 1);
      if s[i] == 'I' && EventAhead(s, i + 1) {
        var j :| EventAt(s, i + 1, j);
        assert MatchesAt(s, i, j);
      }
      if a, j :| i <= a && MatchesAt(s, a, j) {
        if a == i {
          assert EventAt(s, i + 1, j);
        } else {
          assert i + 1 <= a;
        }
      }
    }
  }

  /** The scan agrees with the meaning of the pattern: some `I`, then `Event`, with no line break between. */
  lemma EventInterfaceCorrect(s: string)
    ensures IsEventInterface(s) <==> exists i, j :: MatchesAt(s, i, j)
  {
    EventInterfaceFromCorrect(s, 0);
  }

  /** `cb` and the method name without its `on`/`On`. */
  function CallbackField(name: string): (f: string)
    requires StartsWithOn(name)
    ensures |f| == |name| && f[..2] == "cb" && f[2..] == name[2..]
  {
    "cb" + name[2..]
  }

  /** `onX` and `OnX` share a callback field. */
  lemma CallbackFieldIgnoresCase(a: string, b: string)
    requires StartsWithOn(a) && StartsWithOn(b)
    ensures CallbackField(a) == CallbackField(b) <==> a[2..] == b[2..]
  {
    if CallbackField(a) == CallbackField(b) {
      assert a[2..] == CallbackField(a)[2..];
    }
  }

  /** The adapter's function-pointer field for one event method: `this`, then the argument types. */
  function EventField(cls: string, m: Entity): string
    requires StartsWithOn(m.name)
  {
    "  void (*" + CallbackField(m.name) + ")(" + cls + " *" + ArgTypes(m.arguments) + ") = 0;\r\n"
  }

  /** The adapter's override of one event method: calls the field, when set, with `this` and the arguments. */
  function EventMethod(m: Entity): string
    requires StartsWithOn(m.name)
  {
    var f := CallbackField(m.name);
    "  void " + m.name + "(" + JoinTypedArgs(m.arguments) + ") {\r\n    if (" + f + ") " + f + "(this" + ArgNames(m.arguments) + ");\r\n  }\r\n"
  }

  function AdapterName(cls: string): string
    requires |cls| >= 1
  {
    "ZoomGlue_" + cls[1..]
  }

  const AdapterBrief := "/// \\brief Generated interface implementation for callbacks.\r\nclass "

  function AdapterClass(cls: string, fields: string, methods: string): string
    requires |cls| >= 1
  {
    AdapterBrief + AdapterName(cls) + ": public " + cls
      + " {\r\npublic:\r\n" + fields + methods + "};"
  }

  function PlacementNewSignature(cls: string): string {
    "void " + cls + "_PlacementNew(" + cls + " *out)"
  }

  function PlacementNewDeclaration(cls: string): string {
    PlacementNewSignature(cls) + ";"
  }

  function PlacementNewDefinition(cls: string): string {
    PlacementNewSignature(cls) + " {\r\n  new (out) " + cls + ";\r\n}"
  }

  function DefaultValueSignature(shortName: string, cls: string): string {
    cls + " ZoomGlue_" + shortName + "_DefaultValue()"
  }

  function DefaultValueDeclaration(shortName: string, cls: string): string {
    DefaultValueSignature(shortName, cls) + ";"
  }

  function DefaultValueDefinition(shortName: string, cls: string): string {
    DefaultValueSignature(shortName, cls) + " {\r\n  " + cls + " x; return x;\r\n}"
  }

  /* ---------- Visiting a class ---------- */

  /** The header entries for the forwarding functions `fs`, in order. */
  function Declarations(cls: string, fs: seq<Forward>): (r: seq<string>)
    ensures |r| == |fs|
    decreases |fs|
  {
    if fs == [] then []
    else
      var f := fs[|fs| - 1];
      Declarations(cls, fs[..|fs| - 1]) + [Declaration(cls, f.glue, f.member) + CRLF]
  }

  /** The source entries for the forwarding functions `fs`, in order; each forwards to its own method. */
  function Definitions(cls: string, fs: seq<Forward>): (r: seq<string>)
    ensures |r| == |fs|
    decreases |fs|
  {
    if fs == [] then []
    else
      var f := fs[|fs| - 1];
      Definitions(cls, fs[..|fs| - 1]) + [Definition(cls, f.glue, f.member.name, f.member) + CRLF]
  }

  lemma TextsAppend(cls: string, fs: seq<Forward>, f: Forward)
    ensures Declarations(cls, fs + [f]) == Declarations(cls, fs) + [Declaration(cls, f.glue, f.member) + CRLF]
    ensures Definitions(cls, fs + [f]) == Definitions(cls, fs) + [Definition(cls, f.glue, f.member.name, f.member) + CRLF]
  {
    assert (fs + [f])[..|fs|] == fs;
  }

  /** The i-th header and source entries belong to the i-th forwarding function. */
  lemma {:induction false} TextsAt(cls: string, fs: seq<Forward>, i: nat)
    requires i < |fs|
    ensures Declarations(cls, fs)[i] == Declaration(cls, fs[i].glue, fs[i].member) + CRLF
    ensures Definitions(cls, fs)[i] == Definition(cls, fs[i].glue, fs[i].member.name, fs[i].member) + CRLF
    decreases |fs|
  {
    if i < |fs| - 1 {
      TextsAt(cls, fs[..|fs| - 1], i);
    }
  }

  /** Every method of `es` is named `on…` or `On…`. */
  predicate AllOn(es: seq<Entity>) {
    forall i :: 0 <= i < |es| ==> StartsWithOn(es[i].name)
  }

  /** The adapter's fields, one per event method, in order. */
  function EventFields(cls: string, es: seq<Entity>): string
    requires AllOn(es)
    decreases |es|
  {
    if es == [] then "" else EventFields(cls, es[..|es| - 1]) + EventField(cls, es[|es| - 1])
  }

  /** The adapter's methods, one per event method, in order. */
  function EventMethods(es: seq<Entity>): string
    requires AllOn(es)
    decreases |es|
  {
    if es == [] then "" else EventMethods(es[..|es| - 1]) + EventMethod(es[|es| - 1])
  }

  lemma AdapterAppend(cls: string, es: seq<Entity>, m: Entity)
    requires AllOn(es) && StartsWithOn(m.name)
    ensures AllOn(es + [m])
    ensures EventFields(cls, es + [m]) == EventFields(cls, es) + EventField(cls, m)
    ensures EventMethods(es + [m]) == EventMethods(es) + EventMethod(m)
  {
    assert (es + [m])[..|es|] == es;
  }

  /** `EventImplementation`: the adapter's fields and methods so far. */
  datatype EventImplementation = EventImplementation(fields: string, methods: string)

  /** The adapter text for the event methods `es`. */
  function Adapter(cls: string, es: seq<Entity>): EventImplementation
    requires AllOn(es)
  {
    EventImplementation(EventFields(cls, es), EventMethods(es))
  }

  /**
   * What visiting a class has produced so far: the forwarding functions written, the names seen,
   * the event methods of the adapter under construction (for an event interface), and the panic
   * that ended it, if any.
   */
  datatype ClassVisit = ClassVisit(
    forwards: seq<Forward>,
    seen: seq<string>,
    events: Option<seq<Entity>>,
    abort: Option<Abort>)

  predicate SkippedKind(k: EntityKind) {
    match k
    case AccessSpecifier | Destructor | BaseSpecifier | EnumDecl | Constructor | FieldDecl => true
    case _ => false
  }

  /** The second child's name starts with `on`/`On` and the class name matches `I.*Event`. */
  predicate IsEventClass(c: Entity) {
    IsEventInterface(c.name) && |c.children| > 1 && StartsWithOn(c.children[1].name)
  }

  /** The adapter's event methods and the panic, if any, after a virtual method `m`. */
  datatype EventVisit = EventVisit(events: Option<seq<Entity>>, abort: Option<Abort>)

  /** A virtual method of an event interface must be an `on…` method returning `void`; it joins the adapter. */
  function EventStep(events: Option<seq<Entity>>, m: Entity): (r: EventVisit)
    ensures r.events.Some? == events.Some?
    ensures events.Some? && AllOn(events.value) ==> AllOn(r.events.value)
  {
    if events.None? then EventVisit(events, None)
    else if !StartsWithOn(m.name) then EventVisit(events, Some(EventMethodNotOn(m.name)))
    else if m.resultType != "void" then EventVisit(events, Some(EventMethodNotVoid(m.name)))
    else EventVisit(Some(events.value + [m]), None)
  }

  /** One member: its own forwarding function, if any, and the names seen, event methods and panic after it. */
  function MemberStep(seen: seq<string>, events: Option<seq<Entity>>, m: Entity): (r: ClassVisit)
    ensures r.events.Some? == events.Some?
    ensures events.Some? && AllOn(events.value) ==> AllOn(r.events.value)
  {
    if m.kind != Method then
      ClassVisit([], seen, events, if SkippedKind(m.kind) then None else Some(UnexpectedKind(m.kind)))
    else if !m.isVirtual then ClassVisit([], seen, events, None)
    else
      var fs := [Forward(GlueName(m.name, Count(seen, m.name)), m)];
      var e := EventStep(events, m);
      ClassVisit(fs, seen + [m.name], e.events, e.abort)
  }

  /** The members `ms` visited in order, stopping at the first panic. */
  function MembersFold(isEvent: bool, ms: seq<Entity>): (r: ClassVisit)
    ensures r.events.Some? == isEvent
    ensures r.events.Some? ==> AllOn(r.events.value)
    decreases |ms|
  {
    if ms == [] then ClassVisit([], [], if isEvent then Some([]) else None, None)
    else
      var v := MembersFold(isEvent, ms[..|ms| - 1]);
      if v.abort.Some? then v
      else
        var w := MemberStep(v.seen, v.events, ms[|ms| - 1]);
        w.(forwards := v.forwards + w.forwards)
  }

  /** `visit_class`: the members' forwarding functions, then, for an event interface, its adapter and placement-new helper. */
  function ClassGlue(c: Entity): Output {
    var v := MembersFold(IsEventClass(c), c.children);
    var hpp := Declarations(c.name, v.forwards);
    var cpp := Definitions(c.name, v.forwards);
    if v.abort.Some? || v.events.None? then Output(hpp, cpp, v.abort)
    else
      var adapter := Adapter(c.name, v.events.value);
      var impl := AdapterName(c.name);
      Output(hpp + [AdapterClass(c.name, adapter.fields, adapter.methods) + CRLF, PlacementNewDeclaration(impl) + CRLF],
             cpp + [PlacementNewDefinition(impl) + CRLF],
             None)
  }

  /** Once a member panics, later members change nothing. */
  lemma {:induction false} MembersFoldAbortPersists(isEvent: bool, ms: seq<Entity>, n: nat)
    requires n <= |ms| && MembersFold(isEvent, ms[..n]).abort.Some?
    ensures MembersFold(isEvent, ms) == MembersFold(isEvent, ms[..n])
    decreases |ms| - n
  {
    if n == |ms| {
      assert ms[..n] == ms;
    } else {
      var init := ms[..|ms| - 1];
      assert init[..n] == ms[..n];
      MembersFoldAbortPersists(isEvent, init, n);
    }
  }

  /** A member the generator accepts: a skipped kind, a non-virtual method, or, in an event interface, an `on` method returning `void`. */
  predicate Admissible(m: Entity, isEvent: bool) {
    if m.kind == Method then !m.isVirtual || !isEvent || (StartsWithOn(m.name) && m.resultType == "void")
    else SkippedKind(m.kind)
  }

  /** A class's members are generated without a panic exactly when every member is admissible. */
  lemma {:induction false} MembersFoldOkIff(isEvent: bool, ms: seq<Entity>)
    ensures MembersFold(isEvent, ms).abort.None? <==> forall i :: 0 <= i < |ms| ==> Admissible(ms[i], isEvent)
    decreases |ms|
  {
    if ms != [] {
      var init := ms[..|ms| - 1];
      MembersFoldOkIff(isEvent, init);
      assert forall i :: 0 <= i < |init| ==> ms[i] == init[i];
      if MembersFold(isEvent, init).abort.Some? {
        var i :| 0 <= i < |init| && !Admissible(init[i], isEvent);
        assert !Admissible(ms[i], isEvent);
      }
    }
  }

  /**
   * The forwarding functions for the virtual methods `vs`: each named by the number of times its
   * name occurs among the virtual methods before it.
   */
  function ForwardsFor(vs: seq<Entity>): (fs: seq<Forward>)
    ensures |fs| == |vs|
    decreases |vs|
  {
    if vs == [] then []
    else
      var init := vs[..|vs| - 1];
      var m := vs[|vs| - 1];
      ForwardsFor(init) + [Forward(GlueName(m.name, Count(Names(init), m.name)), m)]
  }

  /** The i-th forwarding function forwards to the i-th virtual method, under a name counted over the ones before it. */
  lemma {:induction false} ForwardsForAt(vs: seq<Entity>, i: nat)
    requires i < |vs|
    ensures ForwardsFor(vs)[i] == Forward(GlueName(vs[i].name, Count(Names(vs[..i]), vs[i].name)), vs[i])
    decreases |vs|
  {
    var init := vs[..|vs| - 1];
    if i < |init| {
      ForwardsForAt(init, i);
      assert init[..i] == vs[..i];
    }
  }

  /** Two virtual methods of one class with the same name get different glue names. */
  lemma OverloadsGetDistinctGlueNames(vs: seq<Entity>, i: nat, j: nat)
    requires i < j < |vs| && vs[i].name == vs[j].name
    ensures ForwardsFor(vs)[i].glue != ForwardsFor(vs)[j].glue
  {
    ForwardsForAt(vs, i);
    ForwardsForAt(vs, j);
    NamesPrefix(vs, i);
    NamesPrefix(vs, j);
    OverloadGlueNamesDistinct(Names(vs), i, j);
  }

  lemma MemberStepShape(seen: seq<string>, events: Option<seq<Entity>>, m: Entity)
    ensures var w := MemberStep(seen, events, m);
      if m.kind == Method && m.isVirtual then
        w.forwards == [Forward(GlueName(m.name, Count(seen, m.name)), m)] && w.seen == seen + [m.name]
      else
        w.forwards == [] && w.seen == seen
  {
  }

  /** The text of one more forwarding function (or none) comes after the text of the ones before it. */
  lemma TextsConcat(cls: string, fs: seq<Forward>, gs: seq<Forward>)
    requires |gs| <= 1
    ensures Declarations(cls, fs + gs) == Declarations(cls, fs) + Declarations(cls, gs)
    ensures Definitions(cls, fs + gs) == Definitions(cls, fs) + Definitions(cls, gs)
  {
    if gs == [] {
      assert fs + gs == fs;
    } else {
      var f := gs[0];
      assert gs == [f];
      TextsAppend(cls, fs, f);
      TextsAppend(cls, [], f);
      assert Declarations(cls, gs) == [Declaration(cls, f.glue, f.member) + CRLF];
      assert Definitions(cls, gs) == [Definition(cls, f.glue, f.member.name, f.member) + CRLF];
    }
  }

  /** One more member: the fold goes on from where the members before it left off. */
  lemma MembersFoldStep(isEvent: bool, ms: seq<Entity>, i: nat)
    requires i < |ms| && MembersFold(isEvent, ms[..i]).abort.None?
    ensures var v := MembersFold(isEvent, ms[..i]);
      var w := MemberStep(v.seen, v.events, ms[i]);
      MembersFold(isEvent, ms[..i + 1]) == w.(forwards := v.forwards + w.forwards) && |w.forwards| <= 1
  {
    assert ms[..i + 1][..i] == ms[..i];
    var v := MembersFold(isEvent, ms[..i]);
    MemberStepShape(v.seen, v.events, ms[i]);
  }

  /** Buffers that held the text of the first `i` members and then got member `i`'s hold the text of the first `i + 1`. */
  lemma VisitStep(cls: string, isEvent: bool, ms: seq<Entity>, i: nat,
                  hpp0: seq<string>, cpp0: seq<string>, hpp1: seq<string>, cpp1: seq<string>, hpp: seq<string>, cpp: seq<string>)
    requires i < |ms| && MembersFold(isEvent, ms[..i]).abort.None?
    requires var v := MembersFold(isEvent, ms[..i]); var w := MemberStep(v.seen, v.events, ms[i]);
      hpp1 == hpp0 + Declarations(cls, v.forwards) && hpp == hpp1 + Declarations(cls, w.forwards) &&
      cpp1 == cpp0 + Definitions(cls, v.forwards) && cpp == cpp1 + Definitions(cls, w.forwards)
    ensures var u := MembersFold(isEvent, ms[..i + 1]);
      hpp == hpp0 + Declarations(cls, u.forwards) && cpp == cpp0 + Definitions(cls, u.forwards)
  {
    var v := MembersFold(isEvent, ms[..i]);
    var w := MemberStep(v.seen, v.events, ms[i]);
    MembersFoldStep(isEvent, ms, i);
    var fs := MembersFold(isEvent, ms[..i + 1]).forwards;
    assert fs == v.forwards + w.forwards;
    TextsConcat(cls, v.forwards, w.forwards);
    ConcatAssoc(hpp0, Declarations(cls, v.forwards), Declarations(cls, w.forwards));
    ConcatAssoc(cpp0, Definitions(cls, v.forwards), Definitions(cls, w.forwards));
  }

  /**
   * One more member in the loop of `visit_class`: buffers, names seen, adapter and panic after it
   * agree with `MembersFold` over the members so far, or, after a panic, over all of them.
   */
  lemma MembersVisitStep(cls: string, isEvent: bool, ms: seq<Entity>, i: nat,
                         hpp0: seq<string>, cpp0: seq<string>, hpp1: seq<string>, cpp1: seq<string>, hpp: seq<string>, cpp: seq<string>,
                         seen: seq<string>, ev: Option<EventImplementation>, a: Option<Abort>)
    requires i < |ms|
    requires var v := MembersFold(isEvent, ms[..i]);
      v.abort.None? && hpp1 == hpp0 + Declarations(cls, v.forwards) && cpp1 == cpp0 + Definitions(cls, v.forwards)
    requires var v := MembersFold(isEvent, ms[..i]); var w := MemberStep(v.seen, v.events, ms[i]);
      hpp == hpp1 + Declarations(cls, w.forwards) && cpp == cpp1 + Definitions(cls, w.forwards) &&
      seen == w.seen && a == w.abort && ev.Some? == w.events.Some? &&
      (w.events.Some? ==> AllOn(w.events.value) && ev.value == Adapter(cls, w.events.value))
    ensures a.None? ==> var u := MembersFold(isEvent, ms[..i + 1]);
      u.abort.None? && seen == u.seen && ev.Some? == isEvent && (isEvent ==> ev.value == Adapter(cls, u.events.value)) &&
      hpp == hpp0 + Declarations(cls, u.forwards) && cpp == cpp0 + Definitions(cls, u.forwards)
    ensures a.Some? ==> var u := MembersFold(isEvent, ms);
      hpp == hpp0 + Declarations(cls, u.forwards) && cpp == cpp0 + Definitions(cls, u.forwards) &&
      a == u.abort && ev.Some? == isEvent && (isEvent ==> ev.value == Adapter(cls, u.events.value))
  {
    MembersFoldStep(isEvent, ms, i);
    VisitStep(cls, isEvent, ms, i, hpp0, cpp0, hpp1, cpp1, hpp, cpp);
    if a.Some? {
      MembersFoldAbortPersists(isEvent, ms, i + 1);
    }
  }

  /**
   * Without a panic, a class's members produce one forwarding function per virtual method, in
   * order, and the names seen are the virtual methods' names.
   */
  lemma {:induction false} MembersFoldOutput(isEvent: bool, ms: seq<Entity>)
    requires MembersFold(isEvent, ms).abort.None?
    ensures var v := MembersFold(isEvent, ms); var vs := VirtualMethods(ms);
      v.seen == Names(vs) && v.forwards == ForwardsFor(vs)
    decreases |ms|
  {
    if ms != [] {
      var init := ms[..|ms| - 1];
      var m := ms[|ms| - 1];
      var v0 := MembersFold(isEvent, init);
      assert v0.abort.None?;
      MembersFoldOutput(isEvent, init);
      MemberStepShape(v0.seen, v0.events, m);
      var vs0 := VirtualMethods(init);
      var vs := VirtualMethods(ms);
      if m.kind == Method && m.isVirtual {
        assert vs == vs0 + [m];
        assert vs[..|vs| - 1] == vs0;
      } else {
        assert vs == vs0;
      }
    }
  }

  /** The output of one class: without a panic, one entry per virtual method in each buffer, then the adapter and its helper when it is an event interface. */
  lemma ClassGlueShape(c: Entity)
    requires ClassGlue(c).abort.None?
    ensures var o := ClassGlue(c); var n := |VirtualMethods(c.children)|;
      |o.hpp| == n + (if IsEventClass(c) then 2 else 0) && |o.cpp| == n + (if IsEventClass(c) then 1 else 0)
    ensures IsEventClass(c) ==>
      ClassGlue(c).hpp[|ClassGlue(c).hpp| - 1] == PlacementNewDeclaration(AdapterName(c.name)) + CRLF &&
      ClassGlue(c).cpp[|ClassGlue(c).cpp| - 1] == PlacementNewDefinition(AdapterName(c.name)) + CRLF
  {
    MembersFoldOutput(IsEventClass(c), c.children);
  }

  /* ---------- Visiting namespaces ---------- */

  /** Writes to each buffer, and the panic that ended them, if any. */
  datatype Output = Output(hpp: seq<string>, cpp: seq<string>, abort: Option<Abort>)

  const NoOutput := Output([], [], None)

  /** `a`, then `b` unless `a` panicked. */
  function Then(a: Output, b: Output): Output {
    if a.abort.Some? then a else Output(a.hpp + b.hpp, a.cpp + b.cpp, b.abort)
  }

  /** The classes among `cs` that have children, visited in order. */
  function ClassesGlue(cs: seq<Entity>): Output
    decreases |cs|
  {
    if cs == [] then NoOutput
    else
      var o := ClassesGlue(cs[..|cs| - 1]);
      var c := cs[|cs| - 1];
      if c.kind == ClassDecl && |c.children| > 0 then
        Then(o, ClassGlue(c))
      else o
  }

  predicate IsTagStruct(e: Entity) {
    e.kind == StructDecl && StartsWith(e.name, "tag")
  }

  /** The default-value functions for the `tag*` structs among the first `n` children. */
  function StructsGlue(cs: seq<Entity>, n: nat): Output
    requires n <= |cs|
  {
    if n == 0 then NoOutput
    else
      var o := StructsGlue(cs, n - 1);
      if !IsTagStruct(cs[n - 1]) then o
      else if n == |cs| then Then(o, Output([], [], Some(TagStructIsLast(cs[n - 1].name))))
      else if cs[n].kind != TypedefDecl then o
      else
        var t := cs[n].name;
        Then(o, Output([DefaultEntry(cs, n - 1)], [DefaultValueDefinition(t, "ZOOMSDK::" + t) + CRLF], None))
  }

  /** `visit_namespace`: all classes first, then all structs. */
  function NamespaceGlue(ns: Entity): Output {
    Then(ClassesGlue(ns.children), StructsGlue(ns.children, |ns.children|))
  }

  predicate IsZoomNamespace(e: Entity) {
    e.kind == Namespace && e.name == "ZOOMSDK"
  }

  function NamespacesGlue(cs: seq<Entity>): Output
    decreases |cs|
  {
    if cs == [] then NoOutput
    else
      var o := NamespacesGlue(cs[..|cs| - 1]);
      if IsZoomNamespace(cs[|cs| - 1]) then Then(o, NamespaceGlue(cs[|cs| - 1])) else o
  }

  /** `visit_unit`: every top-level `ZOOMSDK` namespace, in order. */
  function UnitGlue(tu: Entity): Output {
    NamespacesGlue(tu.children)
  }

  /** Only a `tag*` struct in last position makes the struct pass panic. */
  lemma {:induction false} StructsGlueAbortIff(cs: seq<Entity>, n: nat)
    requires n <= |cs|
    ensures StructsGlue(cs, n).abort.Some? <==> n == |cs| && n > 0 && IsTagStruct(cs[n - 1])
  {
    if n > 0 {
      StructsGlueAbortIff(cs, n - 1);
    }
  }

  /** A `tag*` struct at `i` that a typedef immediately follows. */
  predicate DefaultAt(cs: seq<Entity>, i: int) {
    0 <= i && i + 1 < |cs| && IsTagStruct(cs[i]) && cs[i + 1].kind == TypedefDecl
  }

  /** The header entry of the default-value function for the typedef after position `i`. */
  function DefaultEntry(cs: seq<Entity>, i: nat): string
    requires i + 1 < |cs|
  {
    DefaultValueDeclaration(cs[i + 1].name, "ZOOMSDK::" + cs[i + 1].name) + CRLF
  }

  /** `e` is the default-value function of a typedef after a `tag*` struct before position `n`. */
  ghost predicate IsDefaultEntry(cs: seq<Entity>, n: nat, e: string) {
    exists i: nat :: i < n && DefaultAt(cs, i) && e == DefaultEntry(cs, i)
  }

  /**
   * Every default-value function written names a typedef that immediately follows a `tag*` struct,
   * and every such typedef gets one.
   */
  lemma {:induction false} StructsGlueDefaults(cs: seq<Entity>, n: nat)
    requires n <= |cs|
    ensures var o := StructsGlue(cs, n);
      |o.hpp| == |o.cpp| &&
      (forall k :: 0 <= k < |o.hpp| ==> IsDefaultEntry(cs, n, o.hpp[k])) &&
      (forall i: nat :: i < n && DefaultAt(cs, i) ==> DefaultEntry(cs, i) in o.hpp)
  {
    if n > 0 {
      StructsGlueDefaults(cs, n - 1);
      StructsGlueAbortIff(cs, n - 1);
      var o0 := StructsGlue(cs, n - 1);
      var o := StructsGlue(cs, n);
      forall k | 0 <= k < |o0.hpp|
        ensures IsDefaultEntry(cs, n, o0.hpp[k])
      {
        assert IsDefaultEntry(cs, n - 1, o0.hpp[k]);
        var i: nat :| i < n - 1 && DefaultAt(cs, i) && o0.hpp[k] == DefaultEntry(cs, i);
      }
      if DefaultAt(cs, n - 1) {
        assert o.hpp == o0.hpp + [DefaultEntry(cs, n - 1)];
        assert IsDefaultEntry(cs, n, o.hpp[|o0.hpp|]);
      } else {
        assert o.hpp == o0.hpp && o.cpp == o0.cpp;
      }
    }
  }

  /** Once a namespace panics, later ones change nothing. */
  lemma {:induction false} NamespacesGlueAbortPersists(cs: seq<Entity>, n: nat)
    requires n <= |cs| && NamespacesGlue(cs[..n]).abort.Some?
    ensures NamespacesGlue(cs) == NamespacesGlue(cs[..n])
    decreases |cs| - n
  {
    if n == |cs| {
      assert cs[..n] == cs;
    } else {
      var init := cs[..|cs| - 1];
      assert init[..n] == cs[..n];
      NamespacesGlueAbortPersists(init, n);
    }
  }

  lemma ClassesGlueStep(cs: seq<Entity>, i: nat)
    requires i < |cs|
    ensures ClassesGlue(cs[..i + 1]) ==
      if cs[i].kind == ClassDecl && |cs[i].children| > 0 then Then(ClassesGlue(cs[..i]), ClassGlue(cs[i])) else ClassesGlue(cs[..i])
  {
    assert cs[..i + 1][..i] == cs[..i];
  }

  /** One more class in the first loop of `visit_namespace`: buffers and panic after it agree with `ClassesGlue`. */
  lemma ClassesVisitStep(cs: seq<Entity>, i: nat, hpp0: seq<string>, cpp0: seq<string>,
                         hpp1: seq<string>, cpp1: seq<string>, hpp: seq<string>, cpp: seq<string>, a: Option<Abort>)
    requires i < |cs|
    requires var o := ClassesGlue(cs[..i]); o.abort.None? && hpp1 == hpp0 + o.hpp && cpp1 == cpp0 + o.cpp
    requires var c := cs[i];
      if c.kind == ClassDecl && |c.children| > 0 then
        var o := ClassGlue(c); hpp == hpp1 + o.hpp && cpp == cpp1 + o.cpp && a == o.abort
      else hpp == hpp1 && cpp == cpp1 && a.None?
    ensures a.None? ==> var o := ClassesGlue(cs[..i + 1]); o.abort.None? && hpp == hpp0 + o.hpp && cpp == cpp0 + o.cpp
    ensures a.Some? ==> var o := ClassesGlue(cs); hpp == hpp0 + o.hpp && cpp == cpp0 + o.cpp && a == o.abort
  {
    ClassesGlueStep(cs, i);
    var c := cs[i];
    if c.kind == ClassDecl && |c.children| > 0 {
      AppendThen(hpp0, cpp0, hpp1, cpp1, hpp, cpp, ClassesGlue(cs[..i]), ClassGlue(c));
      if a.Some? {
        ClassesGlueAbortPersists(cs, i + 1);
      }
    }
  }

  /** Once a class panics, later ones change nothing. */
  lemma {:induction false} ClassesGlueAbortPersists(cs: seq<Entity>, n: nat)
    requires n <= |cs| && ClassesGlue(cs[..n]).abort.Some?
    ensures ClassesGlue(cs) == ClassesGlue(cs[..n])
    decreases |cs| - n
  {
    if n == |cs| {
      assert cs[..n] == cs;
    } else {
      var init := cs[..|cs| - 1];
      assert init[..n] == cs[..n];
      ClassesGlueAbortPersists(init, n);
    }
  }

  /** Buffers that got `a`'s writes and then `b`'s hold what `Then(a, b)` writes. */
  lemma AppendThen(hpp0: seq<string>, cpp0: seq<string>, hpp1: seq<string>, cpp1: seq<string>, hpp: seq<string>, cpp: seq<string>,
                   a: Output, b: Output)
    requires a.abort.None?
    requires hpp1 == hpp0 + a.hpp && cpp1 == cpp0 + a.cpp && hpp == hpp1 + b.hpp && cpp == cpp1 + b.cpp
    ensures var o := Then(a, b); hpp == hpp0 + o.hpp && cpp == cpp0 + o.cpp && o.abort == b.abort
  {
  }

  lemma ConcatAssoc<T>(a: seq<T>, b: seq<T>, c: seq<T>)
    ensures a + b + c == a + (b + c)
  {
  }

  /* ---------- The generator ---------- */

  /** `GlueGenerator`: the two output files, as the sequence of writes made to each, in order. */
  class GlueGenerator {
    var hpp: seq<string>
    var cpp: seq<string>

    constructor ()
      ensures hpp == [] && cpp == []
    {
      hpp := [];
      cpp := [];
    }

    /** `write_hpp`: the code and a line break, after everything written before. */
    method WriteHpp(code: string)
      modifies this
      ensures hpp == old(hpp) + [code + CRLF] && cpp == old(cpp)
    {
      hpp := hpp + [code + CRLF];
    }

    /** `write_cpp` */
    method WriteCpp(code: string)
      modifies this
      ensures cpp == old(cpp) + [code + CRLF] && hpp == old(hpp)
    {
      cpp := cpp + [code + CRLF];
    }

    /** `write_output`: the declaration to the header, the definition to the source. */
    method WriteOutput(declaration: string, definition: string)
      modifies this
      ensures hpp == old(hpp) + [declaration + CRLF] && cpp == old(cpp) + [definition + CRLF]
    {
      WriteHpp(declaration);
      WriteCpp(definition);
    }

    /** `generate_placement_new` */
    method GeneratePlacementNew(cls: string)
      modifies this
      ensures hpp == old(hpp) + [PlacementNewDeclaration(cls) + CRLF]
      ensures cpp == old(cpp) + [PlacementNewDefinition(cls) + CRLF]
    {
      var signature := "void " + cls + "_PlacementNew(" + cls + " *out)";
      var declaration := signature + ";";
      var definition := signature + " {\r\n  new (out) " + cls + ";\r\n}";
      WriteOutput(declaration, definition);
    }

    /** `generate_default_value` */
    method GenerateDefaultValue(shortName: string, cls: string)
      modifies this
      ensures hpp == old(hpp) + [DefaultValueDeclaration(shortName, cls) + CRLF]
      ensures cpp == old(cpp) + [DefaultValueDefinition(shortName, cls) + CRLF]
    {
      var signature := cls + " ZoomGlue_" + shortName + "_DefaultValue()";
      var declaration := signature + ";";
      var definition := signature + " {\r\n  " + cls + " x; return x;\r\n}";
      WriteOutput(declaration, definition);
    }

    /** The forwarding function of one virtual method, built as `visit_class` builds it. */
    method WriteForward(cls: string, glueName: string, cppName: string, m: Entity)
      modifies this
      ensures hpp == old(hpp) + [Declaration(cls, glueName, m) + CRLF]
      ensures cpp == old(cpp) + [Definition(cls, glueName, cppName, m) + CRLF]
    {
      var constQualifier := if m.isConst then "const " else "";
      var signature := m.resultType + " ZoomGlue_" + cls + "_" + glueName + "(" + constQualifier + " ZOOMSDK::" + cls + " *self";
      signature := AppendArgDecls(signature, m.arguments);
      var definition := signature;
      signature := signature + ");";
      var declaration := if m.commentBrief.Some? then "/// " + m.commentBrief.value + "\r\n" + signature else signature;
      definition := definition + ") {\r\n    return self->" + cppName + "(";
      definition := AppendJoinedNames(definition, m.arguments);
      definition := definition + ");\r\n}";
      WriteOutput(declaration, definition);
    }

    /** The adapter's field and method for one event method, built as `visit_class` builds them. */
    static method AppendEvent(cls: string, ev: EventImplementation, m: Entity) returns (r: EventImplementation)
      requires StartsWithOn(m.name)
      ensures r == EventImplementation(ev.fields + EventField(cls, m), ev.methods + EventMethod(m))
    {
      var fieldName := "cb" + m.name[2..];
      var field := "  void (*" + fieldName + ")(" + cls + " *";
      field := AppendArgTypes(field, m.arguments);
      field := field + ") = 0;\r\n";
      var adapterMethod := "  void " + m.name + "(";
      adapterMethod := AppendJoinedTypedArgs(adapterMethod, m.arguments);
      adapterMethod := adapterMethod + ") {\r\n    if (" + fieldName + ") " + fieldName + "(this";
      adapterMethod := AppendArgNames(adapterMethod, m.arguments);
      adapterMethod := adapterMethod + ");\r\n  }\r\n";
      r := EventImplementation(ev.fields + field, ev.methods + adapterMethod);
    }

    /** One member of the loop in `visit_class`; `events` are the event methods behind `ev`. */
    method VisitMember(cls: string, namesSeen: seq<string>, ev: Option<EventImplementation>, ghost events: Option<seq<Entity>>, m: Entity)
      returns (seen: seq<string>, evAfter: Option<EventImplementation>, abort: Option<Abort>)
      requires ev.Some? == events.Some? && (events.Some? ==> AllOn(events.value) && ev.value == Adapter(cls, events.value))
      modifies this
      ensures var w := MemberStep(namesSeen, events, m);
        hpp == old(hpp) + Declarations(cls, w.forwards) && cpp == old(cpp) + Definitions(cls, w.forwards) &&
        seen == w.seen && abort == w.abort && evAfter.Some? == w.events.Some? &&
        (w.events.Some? ==> AllOn(w.events.value) && evAfter.value == Adapter(cls, w.events.value))
    {
      seen, evAfter, abort := namesSeen, ev, None;
      if m.kind != Method {
        if !SkippedKind(m.kind) {
          abort := Some(UnexpectedKind(m.kind));
        }
        return;
      }
      if !m.isVirtual {
        return;
      }
      var cppName, glueName;
      cppName, glueName, seen := RenameOverloads(m.name, namesSeen);
      WriteForward(cls, glueName, cppName, m);
      TextsAppend(cls, [], Forward(glueName, m));
      evAfter, abort := VisitEventMethod(cls, ev, events, m);
    }

    /** The checks `visit_class` makes of a virtual method of an event interface, and its adapter entries. */
    static method VisitEventMethod(cls: string, ev: Option<EventImplementation>, ghost events: Option<seq<Entity>>, m: Entity)
      returns (evAfter: Option<EventImplementation>, abort: Option<Abort>)
      requires ev.Some? == events.Some? && (events.Some? ==> AllOn(events.value) && ev.value == Adapter(cls, events.value))
      ensures var e := EventStep(events, m);
        abort == e.abort && evAfter.Some? == e.events.Some? &&
        (e.events.Some? ==> AllOn(e.events.value) && evAfter.value == Adapter(cls, e.events.value))
    {
      evAfter, abort := ev, None;
      if ev.Some? {
        if !StartsWithOn(m.name) {
          abort := Some(EventMethodNotOn(m.name));
          return;
        }
        if m.resultType != "void" {
          abort := Some(EventMethodNotVoid(m.name));
          return;
        }
        var adapter := AppendEvent(cls, ev.value, m);
        AdapterAppend(cls, events.value, m);
        evAfter := Some(adapter);
      }
    }

    /** The loop of `visit_class` over the members `ms` of class `cls`, up to the first panic. */
    method VisitMembers(cls: string, isEvent: bool, ms: seq<Entity>) returns (ev: Option<EventImplementation>, abort: Option<Abort>)
      modifies this
      ensures var v := MembersFold(isEvent, ms);
        hpp == old(hpp) + Declarations(cls, v.forwards) && cpp == old(cpp) + Definitions(cls, v.forwards) &&
        abort == v.abort && ev.Some? == isEvent && (isEvent ==> ev.value == Adapter(cls, v.events.value))
    {
      var seen: seq<string> := [];
      assert ms[..0] == [];
      ev := if isEvent then Some(EventImplementation("", "")) else None;
      var i := 0;
      while i < |ms|
        invariant 0 <= i <= |ms|
        invariant var v := MembersFold(isEvent, ms[..i]);
          v.abort.None? && seen == v.seen && ev.Some? == isEvent && (isEvent ==> ev.value == Adapter(cls, v.events.value)) &&
          hpp == old(hpp) + Declarations(cls, v.forwards) && cpp == old(cpp) + Definitions(cls, v.forwards)
      {
        ghost var v := MembersFold(isEvent, ms[..i]);
        ghost var hpp1, cpp1 := hpp, cpp;
        var a;
        seen, ev, a := VisitMember(cls, seen, ev, v.events, ms[i]);
        MembersVisitStep(cls, isEvent, ms, i, old(hpp), old(cpp), hpp1, cpp1, hpp, cpp, seen, ev, a);
        if a.Some? {
          return ev, a;
        }
        i := i + 1;
      }
      assert ms[..|ms|] == ms;
      abort := None;
    }

    /** `visit_class` */
    method VisitClass(c: Entity) returns (abort: Option<Abort>)
      modifies this
      ensures var o := ClassGlue(c); hpp == old(hpp) + o.hpp && cpp == old(cpp) + o.cpp && abort == o.abort
    {
      var isEvent := IsEventInterface(c.name) && |c.children| > 1 && StartsWithOn(c.children[1].name);
      assert isEvent == IsEventClass(c);
      var ev;
      ev, abort := VisitMembers(c.name, isEvent, c.children);
      if abort.Some? {
        return;
      }
      if isEvent {
        ghost var members := hpp;
        ghost var o := ClassGlue(c);
        ghost var v := MembersFold(isEvent, c.children);
        assert o.hpp == Declarations(c.name, v.forwards) + [AdapterClass(c.name, ev.value.fields, ev.value.methods) + CRLF, PlacementNewDeclaration(AdapterName(c.name)) + CRLF];
        var impl := AdapterName(c.name);
        WriteHpp(AdapterClass(c.name, ev.value.fields, ev.value.methods));
        GeneratePlacementNew(impl);
        assert hpp == members + [AdapterClass(c.name, ev.value.fields, ev.value.methods) + CRLF, PlacementNewDeclaration(impl) + CRLF];
        ConcatAssoc(old(hpp), Declarations(c.name, v.forwards), [AdapterClass(c.name, ev.value.fields, ev.value.methods) + CRLF, PlacementNewDeclaration(impl) + CRLF]);
        ConcatAssoc(old(cpp), Definitions(c.name, v.forwards), [PlacementNewDefinition(impl) + CRLF]);
      }
    }

    /** The first loop of `visit_namespace`: every class among `cs` that has members. */
    method VisitClasses(cs: seq<Entity>) returns (abort: Option<Abort>)
      modifies this
      ensures var o := ClassesGlue(cs); hpp == old(hpp) + o.hpp && cpp == old(cpp) + o.cpp && abort == o.abort
    {
      var i := 0;
      assert cs[..0] == [];
      while i < |cs|
        invariant 0 <= i <= |cs|
        invariant var o := ClassesGlue(cs[..i]);
          o.abort.None? && hpp == old(hpp) + o.hpp && cpp == old(cpp) + o.cpp
      {
        var c := cs[i];
        ghost var hpp1, cpp1 := hpp, cpp;
        var a: Option<Abort> := None;
        if c.kind == ClassDecl && |c.children| > 0 {
          a := VisitClass(c);
        }
        ClassesVisitStep(cs, i, old(hpp), old(cpp), hpp1, cpp1, hpp, cpp, a);
        if a.Some? {
          return a;
        }
        i := i + 1;
      }
      assert cs[..|cs|] == cs;
      return None;
    }

    /** The second loop of `visit_namespace`: a default-value function for each typedef of a `tag*` struct. */
    method VisitStructs(cs: seq<Entity>) returns (abort: Option<Abort>)
      modifies this
      ensures var o := StructsGlue(cs, |cs|); hpp == old(hpp) + o.hpp && cpp == old(cpp) + o.cpp && abort == o.abort
    {
      var j := 0;
      while j < |cs|
        invariant 0 <= j <= |cs|
        invariant var o := StructsGlue(cs, j);
          o.abort.None? && hpp == old(hpp) + o.hpp && cpp == old(cpp) + o.cpp
      {
        ghost var o := StructsGlue(cs, j);
        var s := cs[j];
        if IsTagStruct(s) {
          if j + 1 >= |cs| {
            return Some(TagStructIsLast(s.name));
          }
          var typedef := cs[j + 1];
          if typedef.kind == TypedefDecl {
            var structName := typedef.name;
            ghost var hpp1, cpp1 := hpp, cpp;
            GenerateDefaultValue(structName, "ZOOMSDK::" + structName);
            AppendThen(old(hpp), old(cpp), hpp1, cpp1, hpp, cpp, o,
              Output([DefaultEntry(cs, j)], [DefaultValueDefinition(structName, "ZOOMSDK::" + structName) + CRLF], None));
          }
        }
        j := j + 1;
      }
      return None;
    }

    /** `visit_namespace`: first every class with members, then the `tag*` structs. */
    method VisitNamespace(ns: Entity) returns (abort: Option<Abort>)
      modifies this
      ensures var o := NamespaceGlue(ns); hpp == old(hpp) + o.hpp && cpp == old(cpp) + o.cpp && abort == o.abort
    {
      abort := VisitClasses(ns.children);
      if abort.Some? {
        return;
      }
      ghost var hpp1, cpp1 := hpp, cpp;
      abort := VisitStructs(ns.children);
      AppendThen(old(hpp), old(cpp), hpp1, cpp1, hpp, cpp, ClassesGlue(ns.children), StructsGlue(ns.children, |ns.children|));
    }

    /** `visit_unit`: every top-level namespace named `ZOOMSDK`, in order. */
    method VisitUnit(tu: Entity) returns (abort: Option<Abort>)
      modifies this
      ensures var o := UnitGlue(tu); hpp == old(hpp) + o.hpp && cpp == old(cpp) + o.cpp && abort == o.abort
    {
      var children := tu.children;
      var i := 0;
      assert children[..0] == [];
      while i < |children|
        invariant 0 <= i <= |children|
        invariant var o := NamespacesGlue(children[..i]);
          o.abort.None? && hpp == old(hpp) + o.hpp && cpp == old(cpp) + o.cpp
      {
        assert children[..i + 1][..i] == children[..i];
        if IsZoomNamespace(children[i]) {
          ghost var hpp1, cpp1 := hpp, cpp;
          var a := VisitNamespace(children[i]);
          AppendThen(old(hpp), old(cpp), hpp1, cpp1, hpp, cpp, NamespacesGlue(children[..i]), NamespaceGlue(children[i]));
          if a.Some? {
            NamespacesGlueAbortPersists(children, i + 1);
            return a;
          }
        }
        i := i + 1;
      }
      assert children[..|children|] == children;
      return None;
    }
  }

  /**
   * `generate_glue`, from the parsed translation unit on: both files start with the notice and
   * their preamble, and everything after it is what visiting the unit writes.
   */
  method GenerateGlue(tu: Entity) returns (g: GlueGenerator, abort: Option<Abort>)
    ensures fresh(g)
    ensures g.hpp == [HppPreamble + CRLF] + UnitGlue(tu).hpp
    ensures g.cpp == [CppPreamble + CRLF] + UnitGlue(tu).cpp
    ensures abort == UnitGlue(tu).abort
  {
    g := new GlueGenerator();
    g.WriteOutput(HppPreamble, CppPreamble);
    abort := g.VisitUnit(tu);
  }
}
