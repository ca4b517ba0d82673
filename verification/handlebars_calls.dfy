/**
 How mustaches and blocks are called, told from what the written functions output
 (handlebars-2.0.0.js:27-28): when a name is a helper's, when it is a property's, and what
 a helper is given. Each lemma is about the last statement of a template, so together they
 are about every statement.
 */
module HandlebarsCalls {
  import opened Wrappers
  import opened HandlebarsCompiler
  import opened HandlebarsMachine
  import opened HandlebarsMeaning
  import opened HandlebarsDiscipline
  import opened HandlebarsCorrect

  /** What the function written for a template outputs, and what it leaves of the world. */
  ghost function Played(h: Host, o: Settings, p: Program, w: World): (string, World)
    requires Compiles(o, p)
  {
    EveryTemplateAssembles(o, p);
    Ran(h, Assemble(o, CompiledProgram(o, p)).value, w)
  }

  /** A template that ends in statement `s`. */
  predicate EndsIn(o: Settings, p: Program, s: Statement) {
    Compiles(o, p) && AllParsed(p) && p.statements != [] && p.statements[|p.statements| - 1] == s
  }

  /** The template without its last statement. */
  function Before(o: Settings, p: Program): (q: Program)
    requires Compiles(o, p) && p.statements != []
    ensures Compiles(o, q)
  {
    Program(p.statements[..|p.statements| - 1])
  }

  lemma PlayedMeans(h: Host, o: Settings, p: Program, w: World)
    requires Extensional(h) && AllParsed(p) && Compiles(o, p)
    ensures Played(h, o, p, w) == MeanProgram(h, o, p.statements, w)
  {
    hide Assemble;
    hide CompiledProgram;
    hide Ran;
    hide MeanProgram;
    EveryTemplateAssembles(o, p);
    TemplateMeans(h, o, p);
    assert h.(frame := h.frame) == h;
  }

  /** The last statement goes on where the others have left the world. */
  lemma PlayedAdds(h: Host, o: Settings, p: Program, s: Statement, w: World)
    requires Extensional(h) && EndsIn(o, p, s)
    ensures var b := Played(h, o, Before(o, p), w); var m := MeanStatement(h, o, s, b.1);
            Played(h, o, p, w) == (b.0 + m.0, m.1)
  {
    hide Played;
    hide MeanStatement;
    PlayedMeans(h, o, p, w);
    PlayedMeans(h, o, Before(o, p), w);
  }

  // ---------- What a name can stand for ----------

  /** A property of the context, or under `compat` of the nearest context that has it. */
  function Property(h: Host, o: Settings, name: string): Value {
    if name == "" then h.Context(0)
    else if o.compat then h.Lookup(name)
    else if h.isNull(h.Context(0)) then h.Context(0)
    else h.get(h.Context(0), name)
  }

  /** The options of a call without arguments and blocks. */
  function Bare(h: Host, name: string): Value { h.options(name, h.object_([]), None) }

  function Displayed(h: Host, o: Settings, escaped: bool, v: Value): string {
    if escaped && !o.noEscape then h.escape(v) else if h.isNull(v) then "" else h.show(v)
  }

  /** `{{name}}` or `{{{name}}}`. */
  predicate IsLone(s: Statement, name: string) {
    && s.Mustache? && s.sexpr.Call? && s.sexpr.params == [] && s.sexpr.hash.NoHash?
    && s.sexpr.id.parts == [name] && s.sexpr.id.depth == 0 && !s.sexpr.id.scoped
  }

  /** What `{{name}}` adds if it may be a helper: a helper of that name, or else the property. */
  function Helped(h: Host, o: Settings, name: string, w: World): (Value, World) {
    var found := if h.truthy(h.helper(name)) then h.helper(name) else Property(h, o, name);
    var f := if h.isNull(found) then h.helperMissing else found;
    if h.isFunction(f) then h.Call(w, f, [Bare(h, name)]) else (f, w)
  }

  /** A name alone, without `knownHelpersOnly`. */
  lemma LoneNameIsCalled(h: Host, o: Settings, p: Program, s: Statement, name: string, w: World)
    requires Extensional(h) && EndsIn(o, p, s) && IsLone(s, name)
    requires !o.knownHelpersOnly && !o.knownHelpers(name)
    ensures var b := Played(h, o, Before(o, p), w); var v := Helped(h, o, name, b.1);
            Played(h, o, p, w) == (b.0 + Displayed(h, o, s.escaped, v.0), v.1)
  {
    hide Played;
    PlayedAdds(h, o, p, s, w);
    PathIsProperty(h, o, s.sexpr.id, name);
  }

  /** A known helper is called without looking for it. */
  lemma KnownNameIsCalled(h: Host, o: Settings, p: Program, s: Statement, name: string, w: World)
    requires Extensional(h) && EndsIn(o, p, s) && IsLone(s, name) && o.knownHelpers(name)
    ensures var b := Played(h, o, Before(o, p), w); var v := h.Call(b.1, h.helper(name), [Bare(h, name)]);
            Played(h, o, p, w) == (b.0 + Displayed(h, o, s.escaped, v.0), v.1)
  {
    hide Played;
    PlayedAdds(h, o, p, s, w);
    var b := Played(h, o, Before(o, p), w);
    var none: seq<Value> := [];
    assert MeanParams(h, o, s.sexpr.params, b.1) == (none, b.1);
    assert MeanHash(h, o, s.sexpr.hash, b.1) == (h.object_([]), b.1);
    assert none + [Bare(h, name)] == [Bare(h, name)];
    assert MeanCall(h, o, s.sexpr, None, None, b.1) == h.Call(b.1, h.helper(name), [Bare(h, name)]);
  }

  /** Under `knownHelpersOnly` any other name is the property's. */
  lemma OtherNameIsProperty(h: Host, o: Settings, p: Program, s: Statement, name: string, w: World)
    requires Extensional(h) && EndsIn(o, p, s) && IsLone(s, name)
    requires o.knownHelpersOnly && !o.knownHelpers(name)
    ensures var b := Played(h, o, Before(o, p), w); var v := h.Lambda(b.1, Property(h, o, name));
            Played(h, o, p, w) == (b.0 + Displayed(h, o, s.escaped, v.0), v.1)
  {
    hide Played;
    PlayedAdds(h, o, p, s, w);
    PathIsProperty(h, o, s.sexpr.id, name);
  }

  /** So it makes no difference which helpers there are. */
  lemma OtherNameReachesNoHelper(h: Host, o: Settings, s: Statement, name: string, w: World,
                                 helper: string -> Value, helperMissing: Value)
    requires Extensional(h) && EndsIn(o, Program([s]), s) && IsLone(s, name)
    requires o.knownHelpersOnly && !o.knownHelpers(name)
    ensures Played(h.(helper := helper, helperMissing := helperMissing), o, Program([s]), w)
            == Played(h, o, Program([s]), w)
  {
    hide Played;
    var p, g := Program([s]), h.(helper := helper, helperMissing := helperMissing);
    assert Extensional(g) by {
      assert g.program == h.program;
    }
    OtherNameIsProperty(h, o, p, s, name, w);
    OtherNameIsProperty(g, o, p, s, name, w);
    PlayedMeans(h, o, Before(o, p), w);
    PlayedMeans(g, o, Before(o, p), w);
    assert Before(o, p).statements == [];
  }

  lemma PathIsProperty(h: Host, o: Settings, id: Path, name: string)
    requires id.parts == [name] && id.depth == 0 && !id.scoped
    ensures MeanPath(h, o, id, false) == Property(h, o, name)
  {
    assert id.parts[1..] == [];
    assert Members(h, Member(h, h.Context(0), name, false), [], false) == Member(h, h.Context(0), name, false);
    assert Members(h, h.Lookup(name), [], false) == h.Lookup(name);
  }

  // ---------- Calls with arguments ----------

  /** A mustache with parameters or a hash. */
  predicate IsCall(s: Statement) {
    s.Mustache? && s.sexpr.Call? && (s.sexpr.params != [] || s.sexpr.hash.HashOf?)
  }

  /** What is called: a known helper; or a helper of that name; or what the path leads to; or helperMissing. */
  function Callee(h: Host, o: Settings, id: Path): Value {
    var lone := |id.parts| == 1 && id.depth == 0 && !id.scoped;
    var property := MeanPath(h, o, id, true);
    if id.parts != [] && o.knownHelpers(id.parts[0]) then h.helper(id.parts[0])
    else if lone && h.truthy(h.helper(id.original)) then h.helper(id.original)
    else if h.truthy(property) then property
    else h.helperMissing
  }

  /** A helper gets its parameters in order, and last of all its options with the hash; nothing else is called. */
  lemma CallGetsArguments(h: Host, o: Settings, p: Program, s: Statement, w: World)
    requires Extensional(h) && EndsIn(o, p, s) && IsCall(s)
    ensures var b := Played(h, o, Before(o, p), w);
            var params := MeanParams(h, o, s.sexpr.params, b.1);
            var hash := MeanHash(h, o, s.sexpr.hash, params.1);
            var id := s.sexpr.id;
            var name := if id.parts != [] && o.knownHelpers(id.parts[0]) then id.parts[0] else id.original;
            var v := h.Call(hash.1, Callee(h, o, id), params.0 + [h.options(name, hash.0, None)]);
            && Played(h, o, p, w) == (b.0 + Displayed(h, o, s.escaped, v.0), v.1)
            && |params.0| == |s.sexpr.params|
  {
    hide Played;
    hide MeanPath;
    hide MeanParams;
    hide MeanHash;
    var b := Played(h, o, Before(o, p), w);
    PlayedAdds(h, o, p, s, w);
    ParamsAreValues(h, o, s.sexpr.params, b.1);
  }

  /** What a parameter that calls nothing stands for. */
  function Constant(h: Host, o: Settings, e: Expr): Value
    requires !e.Sub?
  {
    match e
    case Id(path) => MeanPath(h, o, path, false)
    case DataId(up, names) => Members(h, h.Data(up), names, true)
    case StringLit(text) => h.text(text)
    case PlainLit(text) => h.literal(text)
  }

  /** Each parameter arrives in its place. */
  lemma {:induction false} ParamsAreValues(h: Host, o: Settings, params: seq<Expr>, w: World)
    ensures var args := MeanParams(h, o, params, w).0;
            && |args| == |params|
            && forall i :: 0 <= i < |params| && !params[i].Sub? ==> args[i] == Constant(h, o, params[i])
    decreases |params|
  {
    hide MeanPath;
    hide Members;
    if params != [] {
      ParamsAreValues(h, o, Front(params), w);
    }
  }

  // ---------- Blocks ----------

  /** `{{#name}}...{{/name}}`. */
  predicate IsLoneBlock(s: Statement, name: string) {
    && s.Block? && s.head.params == [] && s.head.hash.NoHash?
    && s.head.id.parts == [name] && s.head.id.depth == 0 && !s.head.id.scoped
  }

  /** The options of a block: its programs, each as what it means when it is called. */
  function WithPrograms(h: Host, o: Settings, s: Statement, name: string): Value
    requires s.Block? && (s.program.Some? || s.inverse.Some?)
  {
    h.options(name, h.object_([]),
              Some((if s.program.Some? then Closure(h, o, s.program.value) else h.noop,
                    if s.inverse.Some? then Closure(h, o, s.inverse.value) else h.noop)))
  }

  /** A block of a lone name: a helper of that name, or else blockHelperMissing, gets its programs. */
  function BlockHelped(h: Host, o: Settings, s: Statement, name: string, w: World): (Value, World)
    requires s.Block? && (s.program.Some? || s.inverse.Some?)
  {
    var options := WithPrograms(h, o, s, name);
    var helper := h.helper(name);
    var found := if h.truthy(helper) then helper else Property(h, o, name);
    var f := if h.isNull(found) then h.helperMissing else found;
    var v := if h.isFunction(f) then h.Call(w, f, [options]) else (f, w);
    if h.truthy(helper) then v else h.Call(v.1, h.blockHelperMissing, [v.0, options])
  }

  lemma LoneBlockIsCalled(h: Host, o: Settings, p: Program, s: Statement, name: string, w: World)
    requires Extensional(h) && EndsIn(o, p, s) && IsLoneBlock(s, name)
    requires !o.knownHelpersOnly && !o.knownHelpers(name)
    ensures s.program.Some? || s.inverse.Some?
    ensures var b := Played(h, o, Before(o, p), w); var v := BlockHelped(h, o, s, name, b.1);
            Played(h, o, p, w) == (b.0 + (if h.isNull(v.0) then "" else h.show(v.0)), v.1)
  {
    hide Played;
    hide Closure;
    PlayedAdds(h, o, p, s, w);
    PathIsProperty(h, o, s.head.id, name);
    assert Parsed(p.statements[|p.statements| - 1]);
  }

  /** Under `knownHelpersOnly` a block of any other name goes to blockHelperMissing with the property. */
  lemma OtherBlockIsProperty(h: Host, o: Settings, p: Program, s: Statement, name: string, w: World)
    requires Extensional(h) && EndsIn(o, p, s) && IsLoneBlock(s, name)
    requires o.knownHelpersOnly && !o.knownHelpers(name)
    ensures s.program.Some? || s.inverse.Some?
    ensures var b := Played(h, o, Before(o, p), w);
            var value := h.Lambda(b.1, Property(h, o, name));
            var v := h.Call(value.1, h.blockHelperMissing, [value.0, WithPrograms(h, o, s, s.head.id.original)]);
            Played(h, o, p, w) == (b.0 + (if h.isNull(v.0) then "" else h.show(v.0)), v.1)
  {
    hide Played;
    hide Closure;
    PlayedAdds(h, o, p, s, w);
    PathIsProperty(h, o, s.head.id, name);
    assert Parsed(p.statements[|p.statements| - 1]);
  }
}
