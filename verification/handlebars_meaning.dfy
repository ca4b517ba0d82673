/**
 What a template means, directly and through the JavaScript that the compiler writes,
 and that the two agree (handlebars-2.0.0.js:27-28).
 */
module HandlebarsMeaning {
  import opened Wrappers
  import opened HandlebarsCompiler
  import opened HandlebarsMachine

  type Value(!new)
  type World(!new)     // whatever helpers can see and change
  type Frame(!new)     // what a function is given when it is called: its context, those around it, its data

  /** What calling a program comes to: text, and an effect on the world. */
  type Behaviour = (Frame, World) -> (string, World)

  /** What templates run in: helpers are arbitrary, and may have effects. */
  datatype Host = Host(
    frame: Frame,
    context: (Frame, nat) -> Value,
    data: (Frame, nat) -> Value,
    lookup: (Frame, string) -> Value,
    text: string -> Value,
    literal: string -> Value,
    undefined: Value,
    null_: Value,
    noop: Value,
    truthy: Value -> bool,
    isNull: Value -> bool,
    isFunction: Value -> bool,
    get: (Value, string) -> Value,
    helper: string -> Value,
    helperMissing: Value,
    blockHelperMissing: Value,
    program: (Frame, Behaviour) -> Value,                        // a block's program, as a helper gets it
    object_: seq<(string, Value)> -> Value,
    options: (string, Value, Option<(Value, Value)>) -> Value,
    call: (Frame, World, Value, seq<Value>) -> (Value, World),   // f.call(depth0, args)
    lambda: (Frame, World, Value) -> (Value, World),
    partial_: (Frame, World, string, string, Value, Value) -> (Value, World),
    show: Value -> string,
    escape: Value -> string)
  {
    function Context(depth: nat): Value { context(frame, depth) }
    function Data(up: nat): Value { data(frame, up) }
    function Lookup(name: string): Value { lookup(frame, name) }
    function Call(w: World, f: Value, args: seq<Value>): (Value, World) { call(frame, w, f, args) }
    function Lambda(w: World, v: Value): (Value, World) { lambda(frame, w, v) }
    function Partial(w: World, name: string, indent: string, c: Value, hash: Value): (Value, World) {
      partial_(frame, w, name, indent, c, hash)
    }
  }

  function Or(h: Host, a: Value, b: Value): Value { if h.truthy(a) then a else b }

  /** A look-up of `name` in `v`, guarded as the compiler guards it. */
  function Member(h: Host, v: Value, name: string, falsy: bool): Value {
    if falsy then (if h.truthy(v) then h.get(v, name) else v)
    else (if h.isNull(v) then v else h.get(v, name))
  }

  // ---------- Directly ----------

  function Members(h: Host, v: Value, names: seq<string>, falsy: bool): Value
    decreases names
  {
    if names == [] then v else Members(h, Member(h, v, names[0], falsy), names[1..], falsy)
  }

  function MeanPath(h: Host, o: Settings, p: Path, falsy: bool): Value {
    if p.parts == [] || p.parts[0] == "" then h.Context(p.depth)
    else if p.scoped || !o.compat || p.depth != 0 then Members(h, h.Context(p.depth), p.parts, falsy)
    else Members(h, h.Lookup(p.parts[0]), p.parts[1..], falsy)
  }

  function MeanExpr(h: Host, o: Settings, e: Expr, w: World): (Value, World)
    decreases e
  {
    match e
    case Id(p) => (MeanPath(h, o, p, false), w)
    case DataId(up, names) => (Members(h, h.Data(up), names, true), w)
    case StringLit(text) => (h.text(text), w)
    case PlainLit(text) => (h.literal(text), w)
    case Sub(s) => if s.Call? then MeanCall(h, o, s, None, None, w) else (h.undefined, w)
  }

  /** Parameters are evaluated in the order of the source. */
  function MeanParams(h: Host, o: Settings, params: seq<Expr>, w: World): (seq<Value>, World)
    decreases params
  {
    if params == [] then ([], w)
    else
      var front := MeanParams(h, o, Front(params), w);
      var last := MeanExpr(h, o, Last(params), front.1);
      (front.0 + [last.0], last.1)
  }

  /** The values of a hash are evaluated from the last pair to the first, and stand in that order. */
  function MeanPairs(h: Host, o: Settings, pairs: seq<Pair>, w: World): (seq<(string, Value)>, World)
    decreases pairs
  {
    if pairs == [] then ([], w)
    else
      var last := MeanExpr(h, o, Last(pairs).value, w);
      var front := MeanPairs(h, o, Front(pairs), last.1);
      ([(Last(pairs).key, last.0)] + front.0, front.1)
  }

  function MeanHash(h: Host, o: Settings, hash: Hash, w: World): (Value, World)
    decreases hash
  {
    if hash.NoHash? then (h.object_([]), w)
    else var fields := MeanPairs(h, o, hash.pairs, w); (h.object_(fields.0), fields.1)
  }

  /** The options of a helper: its hash, and the programs of its block if it heads one. */
  function MeanOptions(h: Host, name: string, hash: Value, fn: Option<Value>, inverse: Option<Value>): Value {
    h.options(name, hash, if fn.None? && inverse.None? then None else Some((Given(h, fn), Given(h, inverse))))
  }

  /** A program, or the one that does nothing. */
  function Given(h: Host, fn: Option<Value>): Value { if fn.Some? then fn.value else h.noop }

  /**
   A helper call with its parameters and its hash, and with the programs of its block if it
   heads one. A helper that is not known is looked for under its name, if that is a lone
   one, then under its path; if there is none, helperMissing is called.
   */
  function MeanCall(h: Host, o: Settings, s: Sexpr, fn: Option<Value>, inverse: Option<Value>, w: World)
    : (Value, World)
    requires s.Call?
    decreases s
  {
    var params := MeanParams(h, o, s.params, w);
    var hash := MeanHash(h, o, s.hash, params.1);
    if s.id.parts != [] && o.knownHelpers(s.id.parts[0]) then
      h.Call(hash.1, h.helper(s.id.parts[0]), params.0 + [MeanOptions(h, s.id.parts[0], hash.0, fn, inverse)])
    else
      var found := Or(h, MeanPath(h, o, s.id, true), h.helperMissing);
      var f := if LoneName(s.id) then Or(h, h.helper(s.id.original), found) else found;
      h.Call(hash.1, f, params.0 + [MeanOptions(h, s.id.original, hash.0, fn, inverse)])
  }

  /** `name`, and nothing but that: no `this`, no dots, no outer context. */
  predicate LoneName(p: Path) { |p.parts| == 1 && p.depth == 0 && !p.scoped }

  predicate HasArguments(s: Sexpr) { s.Call? && (s.params != [] || s.hash.HashOf?) }

  /** A name that may be that of a helper registered when the template runs. */
  predicate MayBeHelper(o: Settings, s: Sexpr) {
    s.Call? && !HasArguments(s) && LoneName(s.id) && !o.knownHelpers(s.id.parts[0]) && !o.knownHelpersOnly
  }

  /** A call because of its arguments, or because the name is a known helper's. */
  predicate MustBeHelper(o: Settings, s: Sexpr) {
    s.Call? && (HasArguments(s) || (LoneName(s.id) && o.knownHelpers(s.id.parts[0])))
  }

  /** What stands in a mustache or heads a block. */
  function MeanSexpr(h: Host, o: Settings, s: Sexpr, fn: Option<Value>, inverse: Option<Value>, w: World)
    : (Value, World)
  {
    if MustBeHelper(o, s) then MeanCall(h, o, s, fn, inverse, w)
    else if MayBeHelper(o, s) then
      var f := Or(h, h.helper(s.id.parts[0]), MeanPath(h, o, s.id, false));
      var g := if h.isNull(f) then h.helperMissing else f;
      if h.isFunction(g) then h.Call(w, g, [MeanOptions(h, s.id.parts[0], h.object_([]), fn, inverse)]) else (g, w)
    else h.Lambda(w, if s.DataRef? then Members(h, h.Data(s.up), s.names, true) else MeanPath(h, o, s.id, false))
  }

  /** A block: a helper with its programs, or blockHelperMissing on the value. */
  function MeanBlock(h: Host, o: Settings, s: Head, fn: Option<Value>, inverse: Option<Value>, w: World)
    : (Value, World)
  {
    var v := MeanSexpr(h, o, s, fn, inverse, w);
    var options := (name: string) => MeanOptions(h, name, h.object_([]), fn, inverse);
    if MustBeHelper(o, s) then v
    else if MayBeHelper(o, s) then
      if h.truthy(h.helper(s.id.parts[0])) then v
      else h.Call(v.1, h.blockHelperMissing, [v.0, options(s.id.parts[0])])
    else h.Call(v.1, h.blockHelperMissing, [v.0, options(s.id.original)])
  }

  function Shown(h: Host, v: Value): string { if h.isNull(v) then "" else h.show(v) }

  /** A block's program as a helper gets it: calling it shows what the program means. */
  function Closure(h: Host, o: Settings, p: Program): Value
    decreases p
  {
    h.program(h.frame, (f: Frame, w: World) => MeanProgram(h.(frame := f), o, p.statements, w))
  }

  function ClosureOf(h: Host, o: Settings, p: Option<Program>): Option<Value>
    decreases p
  {
    if p.None? then None else Some(Closure(h, o, p.value))
  }

  /** What a statement adds to the output. */
  function MeanStatement(h: Host, o: Settings, s: Statement, w: World): (string, World)
    decreases s
  {
    match s
    case Content(text) => (text, w)
    case Comment => ("", w)
    case Mustache(sexpr, escaped) =>
      var v := MeanSexpr(h, o, sexpr, None, None, w);
      (if escaped && !o.noEscape then h.escape(v.0) else Shown(h, v.0), v.1)
    case Block(head, program, inverse) =>
      var v := MeanBlock(h, o, head, ClosureOf(h, o, program), ClosureOf(h, o, inverse), w);
      (Shown(h, v.0), v.1)
    case PartialCall(name, context, hash, indent) =>
      var c := if context.Some? then MeanExpr(h, o, context.value, w) else (h.Context(0), w);
      var v := if hash.HashOf? then MeanHash(h, o, hash, c.1) else (h.undefined, c.1);
      var r := h.Partial(v.1, name, indent, c.0, v.0);
      (Shown(h, r.0), r.1)
  }

  function MeanProgram(h: Host, o: Settings, statements: seq<Statement>, w: World): (string, World)
    decreases statements
  {
    if statements == [] then ("", w)
    else
      var before := MeanProgram(h, o, Front(statements), w);
      var last := MeanStatement(h, o, Last(statements), before.1);
      (before.0 + last.0, last.1)
  }

  // ---------- Through the JavaScript ----------

  /** The variables of the generated function, and the world. */
  datatype Run = Run(slots: map<nat, Value>, options: Value, world: World)

  function Eval(h: Host, kids: seq<JsFunction>, e: Js, r: Run): (Value, Run)
    decreases kids, 0, e
  {
    match e
    case Context(depth) => (h.Context(depth), r)
    case Data(up) => (h.Data(up), r)
    case Depthed(name) => (h.Lookup(name), r)
    case Text(text) => (h.text(text), r)
    case Literal(text) => (h.literal(text), r)
    case Undefined => (h.undefined, r)
    case Null => (h.null_, r)
    case ProgramOf(index) => (if index < |kids| then Code(h, kids[index]) else h.undefined, r)
    case Noop => (h.noop, r)
    case Slot(n) => (if n in r.slots then r.slots[n] else h.undefined, r)
    case Assign(n, value) =>
      var v := Eval(h, kids, value, r);
      (v.0, v.1.(slots := v.1.slots[n := v.0]))
    case Guard(prefix, item, name, falsy) =>
      var v := Eval(h, kids, prefix, r);
      if (if falsy then h.truthy(v.0) else !h.isNull(v.0)) then
        var i := Eval(h, kids, item, v.1);
        (h.get(i.0, name), i.1)
      else if falsy then v
      else Eval(h, kids, item, v.1)
    case Object(fields) =>
      var vs := EvalFields(h, kids, fields, r);
      (h.object_(vs.0), vs.1)
    case Options(name, hash, fn, inverse) =>
      var v := Eval(h, kids, hash, r);
      if fn.Null? && inverse.Null? then (h.options(name, v.0, None), v.1)
      else
        var f := Eval(h, kids, fn, v.1);
        var i := Eval(h, kids, inverse, f.1);
        (h.options(name, v.0, Some((f.0, i.0))), i.1)
    case OptionsVar => (r.options, r)
    case Lambda(value) =>
      var v := Eval(h, kids, value, r);
      var c := h.Lambda(v.1.world, v.0);
      (c.0, v.1.(world := c.1))
    case Invoke(named, found, args) =>
      var helper := if named.Some? then h.helper(named.value) else h.undefined;
      var known := named.Some? && h.truthy(helper);
      var f := if known then (helper, r) else Eval(h, kids, found, r);
      var vs := EvalAll(h, kids, args, f.1);
      var c := h.Call(vs.1.world, if known then helper else Or(h, f.0, h.helperMissing), vs.0);
      (c.0, vs.1.(world := c.1))
    case InvokeKnown(name, args) =>
      var vs := EvalAll(h, kids, args, r);
      var c := h.Call(vs.1.world, h.helper(name), vs.0);
      (c.0, vs.1.(world := c.1))
    case InvokeFound(name, found, options, keep) =>
      var helper := h.helper(name);
      var f := if h.truthy(helper) then (helper, r) else Eval(h, kids, found, r);
      var g := if h.isNull(f.0) then h.helperMissing else f.0;
      if keep then
        var v := Eval(h, kids, options, f.1);
        var kept := v.1.(options := v.0);
        if h.isFunction(g) then
          var c := h.Call(kept.world, g, [kept.options]);
          (c.0, kept.(world := c.1))
        else (g, kept)
      else if h.isFunction(g) then
        var v := Eval(h, kids, options, f.1);
        var c := h.Call(v.1.world, g, [v.0]);
        (c.0, v.1.(world := c.1))
      else (g, f.1)
    case BlockMissing(value, options) =>
      var v := Eval(h, kids, value, r);
      var p := Eval(h, kids, options, v.1);
      var c := h.Call(p.1.world, h.blockHelperMissing, [v.0, p.0]);
      (c.0, p.1.(world := c.1))
    case InvokePartialOf(name, indent, context, hash) =>
      var c := Eval(h, kids, context, r);
      var v := Eval(h, kids, hash, c.1);
      var p := h.Partial(v.1.world, name, indent, c.0, v.0);
      (p.0, v.1.(world := p.1))
  }

  function EvalAll(h: Host, kids: seq<JsFunction>, es: seq<Js>, r: Run): (seq<Value>, Run)
    decreases kids, 0, es
  {
    if es == [] then ([], r)
    else
      var front := EvalAll(h, kids, Front(es), r);
      var last := Eval(h, kids, Last(es), front.1);
      (front.0 + [last.0], last.1)
  }

  function EvalFields(h: Host, kids: seq<JsFunction>, fields: seq<Field>, r: Run): (seq<(string, Value)>, Run)
    decreases kids, 0, fields
  {
    if fields == [] then ([], r)
    else
      var front := EvalFields(h, kids, Front(fields), r);
      var last := Eval(h, kids, Last(fields).value, front.1);
      (front.0 + [(Last(fields).key, last.0)], last.1)
  }

  /** The generated function between two statements: its output so far, and whether it has returned. */
  datatype Output = Output(buffer: string, returned: bool, run: Run)

  /** Adds to the buffer; the function of a single statement returns instead. */
  function Emit(out: Output, text: string, isSimple: bool): Output {
    out.(buffer := out.buffer + text, returned := isSimple)
  }

  function Do(h: Host, kids: seq<JsFunction>, isSimple: bool, s: Stmt, out: Output): Output
    decreases kids, 1
  {
    if out.returned then out
    else
      match s
      case EmitText(text) => Emit(out, text, isSimple)
      case EmitUnlessNull(value) =>
        var test := Eval(h, kids, value, out.run);
        if h.isNull(test.0) then out.(run := test.1)
        else
          var again := Eval(h, kids, value, test.1);
          Emit(out.(run := again.1), h.show(again.0), isSimple)
      case ElseEmpty => Emit(out, "", isSimple)
      case EmitEscaped(value) =>
        var v := Eval(h, kids, value, out.run);
        Emit(out.(run := v.1), h.escape(v.0), isSimple)
      case SetSlot(n, value) =>
        var v := Eval(h, kids, Assign(n, value), out.run);
        out.(run := v.1)
      case IfNoHelper(helper, target, value, options) =>
        if h.truthy(h.helper(helper)) || !target.Slot? then out
        else
          var v := Eval(h, kids, Assign(target.n, BlockMissing(value, options)), out.run);
          out.(run := v.1)
  }

  function DoAll(h: Host, kids: seq<JsFunction>, isSimple: bool, source: seq<Stmt>, out: Output): Output
    decreases kids, 2, source
  {
    if source == [] then out
    else Do(h, kids, isSimple, Last(source), DoAll(h, kids, isSimple, Front(source), out))
  }

  /** A call of the written function: its output and what it leaves of the world. */
  function Ran(h: Host, u: JsFunction, w: World): (string, World)
    decreases u, 0
  {
    var out := DoAll(h, u.children, u.isSimple, u.source, Output("", false, Run(map[], h.undefined, w)));
    (out.buffer, out.run.world)
  }

  /** The function written for a block's program, as a helper gets it. */
  function Code(h: Host, u: JsFunction): Value
    decreases u, 1
  {
    h.program(h.frame, (f: Frame, w: World) => Ran(h.(frame := f), u, w))
  }

  // ---------- What a helper can tell of a program ----------

  /** Calling `a` is calling `b`. */
  ghost predicate Alike(a: Behaviour, b: Behaviour) {
    forall f, w :: a(f, w) == b(f, w)
  }

  /** Helpers can call programs, and do not look at their text. */
  ghost predicate Extensional(h: Host) {
    forall f, a, b :: Alike(a, b) ==> h.program(f, a) == h.program(f, b)
  }

  /** If a function does what a program means, in whatever frame it is called, helpers cannot tell them apart. */
  lemma CodeIsClosure(h: Host, o: Settings, u: JsFunction, p: Program)
    requires Extensional(h)
    requires forall f: Frame, w: World :: Ran(h.(frame := f), u, w) == MeanProgram(h.(frame := f), o, p.statements, w)
    ensures Code(h, u) == Closure(h, o, p)
  {
    var a: Behaviour := (f: Frame, w: World) => Ran(h.(frame := f), u, w);
    var b: Behaviour := (f: Frame, w: World) => MeanProgram(h.(frame := f), o, p.statements, w);
    assert Alike(a, b);
    assert Code(h, u) == h.program(h.frame, a);
    assert Closure(h, o, p) == h.program(h.frame, b);
  }
}
