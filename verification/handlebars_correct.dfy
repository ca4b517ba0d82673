/**
 The compiler preserves meaning: running the JavaScript that it writes for a template
 outputs what the template means, with the helpers called in the same order on the same
 arguments (handlebars-2.0.0.js:27-28).
 */
module HandlebarsCorrect {
  import opened Wrappers
  import opened HandlebarsCompiler
  import opened HandlebarsMachine
  import opened HandlebarsMeaning
  import opened HandlebarsDiscipline

  /** Whatever the variables hold, `e` evaluates to `v` and has no effect but on the slots. */
  ghost predicate Stands(h: Host, kids: seq<JsFunction>, e: Js, v: Value) {
    forall r :: var d := Eval(h, kids, e, r); d.0 == v && d.1.world == r.world && d.1.options == r.options
  }

  lemma GuardedStands(h: Host, kids: seq<JsFunction>, e: Entry, v: Value, name: string, falsy: bool)
    requires Stands(h, kids, e.value, v)
    ensures Stands(h, kids, Guarded(e, name, falsy).value, Member(h, v, name, falsy))
  {
    forall r
      ensures var d := Eval(h, kids, Guarded(e, name, falsy).value, r);
              d.0 == Member(h, v, name, falsy) && d.1.world == r.world && d.1.options == r.options
    {
      var d := Eval(h, kids, e.value, r);
      var again := Eval(h, kids, e.value, d.1);
      if e.Computed? {
        var kept := Eval(h, kids, Assign(1, e.value), r);
        assert kept.0 == v;
        assert Eval(h, kids, Slot(1), kept.1) == (v, kept.1);
      }
    }
  }

  /** The temporary slot of a look-up is never anybody else's: chains of look-ups mean what they should. */
  lemma {:induction false} ChainStands(h: Host, kids: seq<JsFunction>, e: Entry, v: Value, names: seq<string>,
                                       falsy: bool)
    requires Stands(h, kids, e.value, v)
    ensures Stands(h, kids, Chain(e, names, falsy).value, Members(h, v, names, falsy))
    decreases names
  {
    if names != [] {
      GuardedStands(h, kids, e, v, names[0], falsy);
      ChainStands(h, kids, Guarded(e, names[0], falsy), Member(h, v, names[0], falsy), names[1..], falsy);
    }
  }

  lemma PathStands(h: Host, o: Settings, kids: seq<JsFunction>, p: Path, falsy: bool)
    ensures Stands(h, kids, PathEntry(o, p, falsy).value, MeanPath(h, o, p, falsy))
  {
    if p.scoped || !o.compat || p.depth != 0 || !Named(p) {
      ChainStands(h, kids, Plain(Context(p.depth)), h.Context(p.depth), if Named(p) then p.parts else [], falsy);
    } else {
      ChainStands(h, kids, Computed(Depthed(p.parts[0])), h.Lookup(p.parts[0]), p.parts[1..], falsy);
    }
  }

  lemma DataStands(h: Host, kids: seq<JsFunction>, up: nat, names: seq<string>)
    ensures Stands(h, kids, Chain(Plain(Data(up)), names, true).value, Members(h, h.Data(up), names, true))
  {
    ChainStands(h, kids, Plain(Data(up)), h.Data(up), names, true);
  }

  /** Index `i`, if any, is that of a function that helpers take for `v`. */
  ghost predicate Refers(h: Host, kids: seq<JsFunction>, i: Option<nat>, v: Option<Value>) {
    (i.Some? <==> v.Some?) && (i.Some? ==> i.value < |kids| && Code(h, kids[i.value]) == v.value)
  }

  /** The options object: the hash is evaluated, the programs are those of the block. */
  lemma OptionsMean(h: Host, kids: seq<JsFunction>, name: string, hash: Js, p: Option<nat>, i: Option<nat>,
                    fn: Option<Value>, inverse: Option<Value>, r: Run)
    requires Refers(h, kids, p, fn) && Refers(h, kids, i, inverse)
    ensures var v := Eval(h, kids, hash, r);
            Eval(h, kids, OptionsCode(name, hash, p, i), r) == (MeanOptions(h, name, v.0, fn, inverse), v.1)
  {
    hide Code;
    hide EvalAll;
    hide EvalFields;
  }

  lemma {:induction false} ExprMeans(h: Host, o: Settings, kids: seq<JsFunction>, e: Expr, r: Run)
    ensures var d, m := Eval(h, kids, ExprEntry(o, e).value, r), MeanExpr(h, o, e, r.world);
            d.0 == m.0 && d.1.world == m.1
    decreases e
  {
    match e
    case Id(p) => PathStands(h, o, kids, p, false);
    case DataId(up, names) => DataStands(h, kids, up, names);
    case StringLit(text) =>
    case PlainLit(text) =>
    case Sub(s) => HelperMeans(h, o, kids, s, true, None, None, None, None, r);
  }

  /** Parameters reach the call in the order of the source, and are evaluated in it. */
  lemma {:induction false} ParamsMean(h: Host, o: Settings, kids: seq<JsFunction>, params: seq<Expr>, r: Run)
    ensures var d, m := EvalAll(h, kids, Values(ParamEntries(o, params)), r), MeanParams(h, o, params, r.world);
            d.0 == m.0 && d.1.world == m.1
    decreases params
  {
    if params != [] {
      ParamsMean(h, o, kids, Front(params), r);
      var es := ParamEntries(o, params);
      assert Front(es) == ParamEntries(o, Front(params)) && Last(es) == ExprEntry(o, Last(params));
      var js := Values(es);
      assert Front(js) == Values(Front(es)) && Last(js) == Last(es).value;
      ExprMeans(h, o, kids, Last(params), EvalAll(h, kids, Front(js), r).1);
    }
  }

  lemma {:induction false} FieldsCons(h: Host, kids: seq<JsFunction>, f: Field, fs: seq<Field>, r: Run)
    ensures var first := Eval(h, kids, f.value, r);
            var rest := EvalFields(h, kids, fs, first.1);
            EvalFields(h, kids, [f] + fs, r) == ([(f.key, first.0)] + rest.0, rest.1)
    decreases fs
  {
    if fs == [] {
      assert [f] + fs == [f] && Front([f]) == [];
      assert EvalFields(h, kids, [], r) == ([], r);
      var first := Eval(h, kids, f.value, r);
      assert [(f.key, first.0)] + [] == [] + [(f.key, first.0)];
    } else {
      assert Front([f] + fs) == [f] + Front(fs) && Last([f] + fs) == Last(fs);
      FieldsCons(h, kids, f, Front(fs), r);
      var first := Eval(h, kids, f.value, r);
      var front := EvalFields(h, kids, Front(fs), first.1);
      var last := Eval(h, kids, Last(fs).value, front.1);
      var a, b := [(f.key, first.0)], [(Last(fs).key, last.0)];
      assert a + front.0 + b == a + (front.0 + b);
    }
  }

  lemma {:induction false} PairsMean(h: Host, o: Settings, kids: seq<JsFunction>, pairs: seq<Pair>, r: Run)
    ensures var d, m := EvalFields(h, kids, Fields(o, pairs), r), MeanPairs(h, o, pairs, r.world);
            d.0 == m.0 && d.1.world == m.1
    decreases pairs
  {
    if pairs != [] {
      var f := Field(Last(pairs).key, ExprEntry(o, Last(pairs).value).value);
      ExprMeans(h, o, kids, Last(pairs).value, r);
      var first := Eval(h, kids, f.value, r);
      PairsMean(h, o, kids, Front(pairs), first.1);
      FieldsCons(h, kids, f, Fields(o, Front(pairs)), r);
    }
  }

  lemma {:induction false} HashMeans(h: Host, o: Settings, kids: seq<JsFunction>, hash: Hash, r: Run)
    ensures var d, m := Eval(h, kids, HashEntry(o, hash).value, r), MeanHash(h, o, hash, r.world);
            d.0 == m.0 && d.1.world == m.1
    decreases hash
  {
    if hash.HashOf? {
      PairsMean(h, o, kids, hash.pairs, r);
    } else {
      assert EvalFields(h, kids, [], r) == ([], r);
    }
  }

  /** What the compiler takes for a call is one, and so on: the kinds are those of the meaning. */
  lemma KindsAgree(o: Settings, s: Sexpr)
    ensures Classify(o, s, false).HelperKind? <==> MustBeHelper(o, s)
    ensures Classify(o, s, false).AmbiguousKind? <==> MayBeHelper(o, s)
    ensures Classify(o, s, true).HelperKind?
  {
  }

  lemma {:induction false} SexprMeans(h: Host, o: Settings, kids: seq<JsFunction>, s: Sexpr,
                                      p: Option<nat>, i: Option<nat>, fn: Option<Value>, inverse: Option<Value>, r: Run)
    requires Refers(h, kids, p, fn) && Refers(h, kids, i, inverse)
    ensures var d, m := Eval(h, kids, SexprCode(o, s, false, p, i), r), MeanSexpr(h, o, s, fn, inverse, r.world);
            d.0 == m.0 && d.1.world == m.1
  {
    hide Refers;
    hide MeanCall;
    KindsAgree(o, s);
    match Classify(o, s, false)
    case SimpleKind =>
      if s.DataRef? {
        DataStands(h, kids, s.up, s.names);
      } else {
        PathStands(h, o, kids, s.id, false);
      }
    case AmbiguousKind => AmbiguousMeans(h, o, kids, s, p, i, fn, inverse, r);
    case HelperKind => HelperMeans(h, o, kids, s, false, p, i, fn, inverse, r);
  }

  /** The ambiguous form; with programs, it keeps the options for later. */
  lemma AmbiguousMeans(h: Host, o: Settings, kids: seq<JsFunction>, s: Sexpr, p: Option<nat>, i: Option<nat>,
                       fn: Option<Value>, inverse: Option<Value>, r: Run)
    requires Refers(h, kids, p, fn) && Refers(h, kids, i, inverse) && Classify(o, s, false) == AmbiguousKind
    ensures var d, m := Eval(h, kids, SexprCode(o, s, false, p, i), r), MeanSexpr(h, o, s, fn, inverse, r.world);
            && d.0 == m.0 && d.1.world == m.1
            && (p.Some? || i.Some? ==> d.1.options == MeanOptions(h, s.id.parts[0], h.object_([]), fn, inverse))
  {
    hide PathEntry;
    hide MeanPath;
    hide OptionsCode;
    hide MeanOptions;
    KindsAgree(o, s);
    var found := PathEntry(o, s.id, false).value;
    PathStands(h, o, kids, s.id, false);
    var f := Eval(h, kids, found, r);
    NoHash(h, kids, r);
    NoHash(h, kids, f.1);
    OptionsMean(h, kids, s.id.parts[0], Object([]), p, i, fn, inverse, r);
    OptionsMean(h, kids, s.id.parts[0], Object([]), p, i, fn, inverse, f.1);
  }

  lemma NoHash(h: Host, kids: seq<JsFunction>, r: Run)
    ensures Eval(h, kids, Object([]), r) == (h.object_([]), r)
  {
    assert EvalFields(h, kids, [], r) == ([], r);
  }

  /** The arguments of a call: the parameters, then the options with the hash. */
  lemma {:induction false} ArgumentsMean(
    h: Host, o: Settings, kids: seq<JsFunction>, s: Sexpr, name: string, p: Option<nat>, i: Option<nat>,
    fn: Option<Value>, inverse: Option<Value>, r: Run)
    requires Refers(h, kids, p, fn) && Refers(h, kids, i, inverse) && s.Call?
    ensures var args := Values(ParamEntries(o, s.params)) + [OptionsCode(name, HashEntry(o, s.hash).value, p, i)];
            var params := MeanParams(h, o, s.params, r.world);
            var hash := MeanHash(h, o, s.hash, params.1);
            var d := EvalAll(h, kids, args, r);
            d.0 == params.0 + [MeanOptions(h, name, hash.0, fn, inverse)] && d.1.world == hash.1
    decreases s, 0
  {
    var js := Values(ParamEntries(o, s.params));
    var hash := HashEntry(o, s.hash).value;
    var args := js + [OptionsCode(name, hash, p, i)];
    assert Front(args) == js;
    ParamsMean(h, o, kids, s.params, r);
    var after := EvalAll(h, kids, js, r).1;
    HashMeans(h, o, kids, s.hash, after);
    OptionsMean(h, kids, name, hash, p, i, fn, inverse, after);
  }

  lemma {:induction false} HelperMeans(h: Host, o: Settings, kids: seq<JsFunction>, s: Sexpr, sub: bool,
                                       p: Option<nat>, i: Option<nat>,
                                       fn: Option<Value>, inverse: Option<Value>, r: Run)
    requires Refers(h, kids, p, fn) && Refers(h, kids, i, inverse) && Classify(o, s, sub) == HelperKind
    ensures var d := Eval(h, kids, SexprCode(o, s, sub, p, i), r);
            var m := if s.Call? then MeanCall(h, o, s, fn, inverse, r.world) else (h.undefined, r.world);
            d.0 == m.0 && d.1.world == m.1
    decreases s, 2
  {
    hide EvalAll;
    hide EvalFields;
    hide Values;
    hide ParamEntries;
    hide HashEntry;
    hide OptionsCode;
    hide MeanParams;
    hide MeanHash;
    hide MeanOptions;
    hide MeanPath;
    hide PathEntry;
    hide Code;
    if s.DataRef? {
    } else if KnownName(o, s.id) {
      ArgumentsMean(h, o, kids, s, s.id.parts[0], p, i, fn, inverse, r);
    } else {
      FoundMeans(h, o, kids, s, sub, p, i, fn, inverse, r);
    }
  }

  /** A helper that is not known may be found under its path, and is looked for only if there is none of its name. */
  lemma {:induction false} FoundMeans(h: Host, o: Settings, kids: seq<JsFunction>, s: Sexpr, sub: bool,
                                      p: Option<nat>, i: Option<nat>, fn: Option<Value>, inverse: Option<Value>, r: Run)
    requires Refers(h, kids, p, fn) && Refers(h, kids, i, inverse)
    requires Classify(o, s, sub) == HelperKind && s.Call? && !KnownName(o, s.id)
    ensures var d, m := Eval(h, kids, SexprCode(o, s, sub, p, i), r), MeanCall(h, o, s, fn, inverse, r.world);
            d.0 == m.0 && d.1.world == m.1
    decreases s, 1
  {
    hide EvalAll;
    hide EvalFields;
    hide Values;
    hide ParamEntries;
    hide HashEntry;
    hide OptionsCode;
    hide MeanParams;
    hide MeanHash;
    hide MeanOptions;
    hide MeanPath;
    hide PathEntry;
    hide Code;
    hide Refers;
    hide Classify;
    var found := PathEntry(o, s.id, true).value;
    PathStands(h, o, kids, s.id, true);
    var f := Eval(h, kids, found, r);
    ArgumentsMean(h, o, kids, s, s.id.original, p, i, fn, inverse, r);
    ArgumentsMean(h, o, kids, s, s.id.original, p, i, fn, inverse, f.1);
  }

  // ---------- Statements and programs ----------

  /** The generated function, run up to the end of what `m` has written and holds back. */
  function OutputOf(h: Host, kids: seq<JsFunction>, simple: bool, m: Machine, w: World): Output {
    DoAll(h, kids, simple, Flushed(m).source, Output("", false, Run(map[], h.undefined, w)))
  }

  lemma {:induction false} DoConcat(h: Host, kids: seq<JsFunction>, simple: bool, a: seq<Stmt>, b: seq<Stmt>,
                                    out: Output)
    ensures DoAll(h, kids, simple, a + b, out) == DoAll(h, kids, simple, b, DoAll(h, kids, simple, a, out))
    decreases b
  {
    if b == [] {
      assert a + b == a;
    } else {
      assert Front(a + b) == a + Front(b) && Last(a + b) == Last(b);
      DoConcat(h, kids, simple, a, Front(b), out);
    }
  }

  lemma DoOne(h: Host, kids: seq<JsFunction>, simple: bool, s: Stmt, out: Output)
    ensures DoAll(h, kids, simple, [s], out) == Do(h, kids, simple, s, out)
  {
    assert Front([s]) == [] && DoAll(h, kids, simple, [], out) == out;
  }

  lemma DoMore(h: Host, kids: seq<JsFunction>, simple: bool, a: seq<Stmt>, s: Stmt, out: Output)
    ensures DoAll(h, kids, simple, a + [s], out) == Do(h, kids, simple, s, DoAll(h, kids, simple, a, out))
  {
    assert Front(a + [s]) == a;
  }

  /** What is in slot 1 is shown, unless it is null. */
  lemma ShowMeans(h: Host, kids: seq<JsFunction>, simple: bool, out: Output, v: Value)
    requires !out.returned && 1 in out.run.slots && out.run.slots[1] == v
    ensures var d := DoAll(h, kids, simple, ShowCode(simple), out);
            d.buffer == out.buffer + Shown(h, v) && d.run.world == out.run.world && (!simple ==> !d.returned)
  {
    var show := EmitUnlessNull(Slot(1));
    DoOne(h, kids, simple, show, out);
    assert Eval(h, kids, Slot(1), out.run) == (v, out.run);
    if simple {
      DoMore(h, kids, simple, [show], ElseEmpty, out);
      assert out.buffer + "" == out.buffer;
    } else {
      assert [show] + [] == [show];
      assert out.buffer + "" == out.buffer;
    }
  }

  /** A value goes to slot 1 and is shown. */
  lemma SetAndShow(h: Host, kids: seq<JsFunction>, simple: bool, code: Js, out: Output)
    requires !out.returned
    ensures var v := Eval(h, kids, code, out.run);
            var d := DoAll(h, kids, simple, [SetSlot(1, code)] + ShowCode(simple), out);
            d.buffer == out.buffer + Shown(h, v.0) && d.run.world == v.1.world && (!simple ==> !d.returned)
  {
    DoConcat(h, kids, simple, [SetSlot(1, code)], ShowCode(simple), out);
    DoOne(h, kids, simple, SetSlot(1, code), out);
    var v := Eval(h, kids, code, out.run);
    var kept := Do(h, kids, simple, SetSlot(1, code), out);
    assert Eval(h, kids, Assign(1, code), out.run) == (v.0, v.1.(slots := v.1.slots[1 := v.0]));
    ShowMeans(h, kids, simple, kept, v.0);
  }

  lemma ValueHasNoPrograms(h: Host, o: Settings, s: Head, fn: Option<Value>, inverse: Option<Value>, w: World)
    requires Classify(o, s, false) == SimpleKind
    ensures MeanSexpr(h, o, s, fn, inverse, w) == MeanSexpr(h, o, s, None, None, w)
  {
    KindsAgree(o, s);
  }

  /** A block that is a helper's, or a plain value's. */
  lemma BlockMeans(h: Host, o: Settings, kids: seq<JsFunction>, head: Head, p: Option<nat>, i: Option<nat>,
                   fn: Option<Value>, inverse: Option<Value>, r: Run)
    requires Refers(h, kids, p, fn) && Refers(h, kids, i, inverse) && Classify(o, head, false) != AmbiguousKind
    ensures var d, m := Eval(h, kids, HeadCode(o, head, p, i), r), MeanBlock(h, o, head, fn, inverse, r.world);
            d.0 == m.0 && d.1.world == m.1
  {
    hide SexprCode;
    hide MeanSexpr;
    hide OptionsCode;
    hide MeanOptions;
    hide Code;
    hide EvalAll;
    KindsAgree(o, head);
    if Classify(o, head, false) == HelperKind {
      SexprMeans(h, o, kids, head, p, i, fn, inverse, r);
    } else {
      SexprMeans(h, o, kids, head, None, None, None, None, r);
      ValueHasNoPrograms(h, o, head, fn, inverse, r.world);
      var v := Eval(h, kids, SexprCode(o, head, false, None, None), r);
      NoHash(h, kids, v.1);
      OptionsMean(h, kids, head.id.original, Object([]), p, i, fn, inverse, v.1);
    }
  }

  /** An ambiguous block: if there is no such helper, blockHelperMissing gets the value. */
  lemma AmbiguousBlockMeans(h: Host, o: Settings, kids: seq<JsFunction>, simple: bool, head: Head,
                            p: Option<nat>, i: Option<nat>, fn: Option<Value>, inverse: Option<Value>, out: Output)
    requires Refers(h, kids, p, fn) && Refers(h, kids, i, inverse) && Classify(o, head, false) == AmbiguousKind
    requires p.Some? || i.Some?
    requires !out.returned
    ensures var code := [SetSlot(1, SexprCode(o, head, false, p, i)),
                         IfNoHelper(head.id.parts[0], Slot(1), Slot(1), OptionsVar)];
            var m := MeanBlock(h, o, head, fn, inverse, out.run.world);
            var d := DoAll(h, kids, simple, code + ShowCode(simple), out);
            d.buffer == out.buffer + Shown(h, m.0) && d.run.world == m.1 && (!simple ==> !d.returned)
  {
    hide SexprCode;
    hide MeanSexpr;
    hide OptionsCode;
    hide MeanOptions;
    hide Code;
    hide EvalAll;
    KindsAgree(o, head);
    var name, js := head.id.parts[0], SexprCode(o, head, false, p, i);
    var set_, repair := SetSlot(1, js), IfNoHelper(name, Slot(1), Slot(1), OptionsVar);
    AmbiguousMeans(h, o, kids, head, p, i, fn, inverse, out.run);
    var v := Eval(h, kids, js, out.run);
    var kept := v.1.(slots := v.1.slots[1 := v.0]);
    DoOne(h, kids, simple, set_, out);
    DoMore(h, kids, simple, [set_], repair, out);
    assert [set_] + [repair] == [set_, repair];
    var first := Do(h, kids, simple, set_, out);
    assert first.run == kept by {
      assert Eval(h, kids, Assign(1, js), out.run) == (v.0, kept);
    }
    var done := Do(h, kids, simple, repair, first);
    var m := MeanBlock(h, o, head, fn, inverse, out.run.world);
    assert 1 in done.run.slots && done.run.slots[1] == m.0 && done.run.world == m.1 by {
      RepairMeans(h, kids, simple, name, first);
    }
    DoConcat(h, kids, simple, [set_, repair], ShowCode(simple), out);
    ShowMeans(h, kids, simple, done, m.0);
  }

  lemma RepairMeans(h: Host, kids: seq<JsFunction>, simple: bool, name: string, out: Output)
    requires !out.returned && 1 in out.run.slots
    ensures var d := Do(h, kids, simple, IfNoHelper(name, Slot(1), Slot(1), OptionsVar), out);
            var c := h.Call(out.run.world, h.blockHelperMissing, [out.run.slots[1], out.run.options]);
            && d == out.(run := d.run)
            && 1 in d.run.slots
            && (if h.truthy(h.helper(name)) then d == out else d.run.slots[1] == c.0 && d.run.world == c.1)
  {
    var r := out.run;
    assert Eval(h, kids, Slot(1), r) == (r.slots[1], r) && Eval(h, kids, OptionsVar, r) == (r.options, r);
    var missing := BlockMissing(Slot(1), OptionsVar);
    var c := h.Call(r.world, h.blockHelperMissing, [r.slots[1], r.options]);
    assert Eval(h, kids, missing, r) == (c.0, r.(world := c.1));
    assert Eval(h, kids, Assign(1, missing), r) == (c.0, r.(world := c.1, slots := r.slots[1 := c.0]));
  }

  lemma PartialMeans(h: Host, o: Settings, kids: seq<JsFunction>, s: Statement, r: Run)
    requires s.PartialCall?
    ensures var d := Eval(h, kids, PartialCode(o, s), r);
            var m := MeanStatement(h, o, s, r.world);
            Shown(h, d.0) == m.0 && d.1.world == m.1
  {
    hide ExprEntry;
    hide HashEntry;
    hide MeanExpr;
    hide MeanHash;
    hide MeanSexpr;
    hide MeanBlock;
    hide Shown;
    if s.context.Some? {
      ExprMeans(h, o, kids, s.context.value, r);
    }
    var context := if s.context.Some? then ExprEntry(o, s.context.value).value else Context(0);
    var c := Eval(h, kids, context, r);
    if s.hash.HashOf? {
      HashMeans(h, o, kids, s.hash, c.1);
    }
  }

  /** The grammar gives every block at least one program. */
  predicate Parsed(s: Statement)
    decreases s
  {
    s.Block? ==>
      && (s.program.Some? || s.inverse.Some?)
      && (s.program.Some? ==> AllParsed(s.program.value)) && (s.inverse.Some? ==> AllParsed(s.inverse.value))
  }

  predicate AllParsed(p: Program)
    decreases p
  {
    forall i :: 0 <= i < |p.statements| ==> Parsed(p.statements[i])
  }

  /** Where the indices of a block point, helpers find what its programs mean. */
  ghost predicate InPlace(h: Host, o: Settings, kids: seq<JsFunction>, s: Statement, base: nat) {
    s.Block? ==>
      && Refers(h, kids, ProgramIndex(s, base), ClosureOf(h, o, s.program))
      && Refers(h, kids, InverseIndex(s, base), ClosureOf(h, o, s.inverse))
  }

  lemma StatementMeans(h: Host, o: Settings, kids: seq<JsFunction>, simple: bool, s: Statement, base: nat, out: Output)
    requires Parsed(s) && InPlace(h, o, kids, s, base) && !s.Content? && !s.Comment? && !out.returned
    ensures var m := MeanStatement(h, o, s, out.run.world);
            var d := DoAll(h, kids, simple, StatementCode(o, simple, s, base), out);
            d.buffer == out.buffer + m.0 && d.run.world == m.1 && (!simple ==> !d.returned)
  {
    hide SexprCode;
    hide MeanSexpr;
    match s
    case Mustache(sexpr, escaped) =>
      var code := SexprCode(o, sexpr, false, None, None);
      SexprMeans(h, o, kids, sexpr, None, None, None, None, out.run);
      if escaped && !o.noEscape {
        DoOne(h, kids, simple, EmitEscaped(code), out);
      } else {
        SetAndShow(h, kids, simple, code, out);
      }
    case Block(head, program, inverse) =>
      var p, i := ProgramIndex(s, base), InverseIndex(s, base);
      var fn, inv := ClosureOf(h, o, program), ClosureOf(h, o, inverse);
      if Classify(o, head, false) == AmbiguousKind {
        AmbiguousBlockMeans(h, o, kids, simple, head, p, i, fn, inv, out);
        var code := [SetSlot(1, SexprCode(o, head, false, p, i)),
                     IfNoHelper(head.id.parts[0], Slot(1), Slot(1), OptionsVar)];
        assert StatementCode(o, simple, s, base) == code + ShowCode(simple);
      } else {
        BlockMeans(h, o, kids, head, p, i, fn, inv, out.run);
        SetAndShow(h, kids, simple, HeadCode(o, head, p, i), out);
        assert StatementCode(o, simple, s, base) == [SetSlot(1, HeadCode(o, head, p, i))] + ShowCode(simple);
      }
    case PartialCall(_, _, _, _) =>
      PartialMeans(h, o, kids, s, out.run);
      SetAndShow(h, kids, simple, PartialCode(o, s), out);
  }

  /** One statement more: the function outputs one statement more. */
  lemma StatementAdds(h: Host, o: Settings, kids: seq<JsFunction>, simple: bool, s: Statement, base: nat,
                      m: Machine, w: World)
    requires AtRest(m) && Parsed(s) && StatementCompiles(o, s) && InPlace(h, o, kids, s, base)
    requires !OutputOf(h, kids, simple, m, w).returned && (simple ==> m.pendingContent == "")
    ensures var r := ExecAll(o, simple, StatementOps(o, s, base), m); r.Ok? && AtRest(r.value)
    ensures var n := ExecAll(o, simple, StatementOps(o, s, base), m).value;
            var out, after := OutputOf(h, kids, simple, m, w), OutputOf(h, kids, simple, n, w);
            var mean := MeanStatement(h, o, s, out.run.world);
            && after.buffer == out.buffer + mean.0 && after.run.world == mean.1
            && (!simple ==> !after.returned)
  {
    hide ExecAll;
    hide StatementOps;
    StatementRuns(o, simple, s, base, m);
    var n := ExecAll(o, simple, StatementOps(o, s, base), m).value;
    var start := Output("", false, Run(map[], h.undefined, w));
    var out := OutputOf(h, kids, simple, m, w);
    if s.Comment? {
      assert out.buffer + "" == out.buffer;
    } else if s.Content? {
      ContentAdds(h, kids, simple, s.text, m, w);
    } else {
      var code := StatementCode(o, simple, s, base);
      DoConcat(h, kids, simple, Flushed(m).source, code, start);
      StatementMeans(h, o, kids, simple, s, base, out);
      assert Flushed(n) == n;
    }
  }

  lemma ContentAdds(h: Host, kids: seq<JsFunction>, simple: bool, text: string, m: Machine, w: World)
    requires !OutputOf(h, kids, simple, m, w).returned && (simple ==> m.pendingContent == "")
    ensures var n := m.(pendingContent := m.pendingContent + text);
            var out, after := OutputOf(h, kids, simple, m, w), OutputOf(h, kids, simple, n, w);
            && after.buffer == out.buffer + text && after.run.world == out.run.world && (!simple ==> !after.returned)
  {
    var start := Output("", false, Run(map[], h.undefined, w));
    var n := m.(pendingContent := m.pendingContent + text);
    if n.pendingContent != "" {
      DoMore(h, kids, simple, m.source, EmitText(n.pendingContent), start);
    }
    if m.pendingContent != "" {
      DoMore(h, kids, simple, m.source, EmitText(m.pendingContent), start);
      var written := DoAll(h, kids, simple, m.source, start);
      assert written.buffer + (m.pendingContent + text) == written.buffer + m.pendingContent + text;
    } else {
      assert m.pendingContent + text == text;
      if text == "" {
        var out := OutputOf(h, kids, simple, m, w);
        assert out.buffer + text == out.buffer;
      }
    }
  }

  /** Index `i`, if any, is that of program `p`, compiled. */
  predicate IsIndexOf(o: Settings, cs: seq<Compiled>, i: Option<nat>, p: Option<Program>) {
    (i.Some? <==> p.Some?) && (i.Some? ==> i.value < |cs| && cs[i.value] == CompiledProgram(o, p.value))
  }

  lemma {:induction false} ChildrenInPlace(o: Settings, statements: seq<Statement>, n: nat)
    requires n < |statements|
    ensures var s, base := statements[n], |AllChildren(o, statements[..n])|;
            s.Block? ==>
              && IsIndexOf(o, AllChildren(o, statements), ProgramIndex(s, base), s.program)
              && IsIndexOf(o, AllChildren(o, statements), InverseIndex(s, base), s.inverse)
    ensures |AllChildren(o, statements[..n])| + |Children(o, statements[n])| <= |AllChildren(o, statements)|
    decreases |statements|
  {
    hide CompiledProgram;
    var last := |statements| - 1;
    if n < last {
      ChildrenInPlace(o, statements[..last], n);
      assert statements[..last][..n] == statements[..n];
    }
  }

  lemma {:induction false} AssembleConcat(o: Settings, a: seq<Compiled>, b: seq<Compiled>)
    requires AssembleAll(o, a).Ok? && AssembleAll(o, b).Ok?
    ensures AssembleAll(o, a + b) == Ok(AssembleAll(o, a).value + AssembleAll(o, b).value)
    decreases |b|
  {
    hide Assemble;
    if b == [] {
      assert a + b == a;
      assert AssembleAll(o, a).value + [] == AssembleAll(o, a).value;
    } else {
      assert Front(a + b) == a + Front(b) && Last(a + b) == Last(b);
      AssembleConcat(o, a, Front(b));
      var x, y, z := AssembleAll(o, a).value, AssembleAll(o, Front(b)).value, Assemble(o, Last(b)).value;
      assert x + y + [z] == x + (y + [z]);
    }
  }

  lemma {:induction false} AssembledAt(o: Settings, cs: seq<Compiled>, i: nat)
    requires AssembleAll(o, cs).Ok? && i < |cs|
    ensures |AssembleAll(o, cs).value| == |cs| && Assemble(o, cs[i]) == Ok(AssembleAll(o, cs).value[i])
    decreases |cs|
  {
    hide Assemble;
    if i < |cs| - 1 {
      AssembledAt(o, Front(cs), i);
    } else {
      AssembledLength(o, Front(cs));
    }
  }

  lemma {:induction false} AssembledLength(o: Settings, cs: seq<Compiled>)
    requires AssembleAll(o, cs).Ok?
    ensures |AssembleAll(o, cs).value| == |cs|
    decreases |cs|
  {
    hide Assemble;
    if cs != [] {
      AssembledLength(o, Front(cs));
    }
  }

  lemma OneAssembles(o: Settings, c: Compiled)
    requires Assemble(o, c).Ok?
    ensures AssembleAll(o, [c]).Ok?
  {
    assert Front([c]) == [] && AssembleAll(o, Front([c])) == Ok([]);
  }

  // ---------- A program and those of its blocks ----------

  /** The functions of a template, and of all programs in it, are written. */
  lemma {:induction false} EveryTemplateAssembles(o: Settings, p: Program)
    requires Compiles(o, p)
    ensures Assemble(o, CompiledProgram(o, p)).Ok?
    decreases p, 1
  {
    hide Generate;
    hide ProgramOps;
    hide StatementCompiles;
    NothingIsLeft(o, p);
    EveryChildAssembles(o, p.statements);
  }

  lemma {:induction false} EveryChildAssembles(o: Settings, statements: seq<Statement>)
    requires forall i :: 0 <= i < |statements| ==> StatementCompiles(o, statements[i])
    ensures AssembleAll(o, AllChildren(o, statements)).Ok?
    decreases statements, 0
  {
    hide Assemble;
    hide CompiledProgram;
    if statements != [] {
      EveryChildAssembles(o, Front(statements));
      BlockAssembles(o, Last(statements));
      AssembleConcat(o, AllChildren(o, Front(statements)), Children(o, Last(statements)));
    }
  }

  lemma {:induction false} BlockAssembles(o: Settings, s: Statement)
    requires StatementCompiles(o, s)
    ensures AssembleAll(o, Children(o, s)).Ok?
    decreases s, 0
  {
    hide CompiledProgram;
    var none: seq<Compiled> := [];
    assert AssembleAll(o, none) == Ok([]);
    if s.Block? {
      if s.program.Some? {
        EveryTemplateAssembles(o, s.program.value);
        OneAssembles(o, CompiledProgram(o, s.program.value));
      }
      if s.inverse.Some? {
        EveryTemplateAssembles(o, s.inverse.value);
        OneAssembles(o, CompiledProgram(o, s.inverse.value));
      }
      AssembleConcat(o, if s.program.Some? then [CompiledProgram(o, s.program.value)] else [],
                     if s.inverse.Some? then [CompiledProgram(o, s.inverse.value)] else []);
    }
  }

  /** The function written for `p` does what `p` means. */
  ghost predicate Correct(h: Host, o: Settings, p: Program) {
    var u := Assemble(o, CompiledProgram(o, p));
    u.Ok? && Code(h, u.value) == Closure(h, o, p)
  }

  ghost predicate BlockIsCorrect(h: Host, o: Settings, s: Statement) {
    s.Block? ==>
      && (s.program.Some? ==> Correct(h, o, s.program.value))
      && (s.inverse.Some? ==> Correct(h, o, s.inverse.value))
  }

  /** So does each function written for a program of a block. */
  lemma {:induction false} BlockCorrect(h: Host, o: Settings, s: Statement)
    requires Extensional(h) && Parsed(s) && StatementCompiles(o, s)
    ensures BlockIsCorrect(h, o, s)
    decreases s, 0
  {
    hide Correct;
    if s.Block? {
      if s.program.Some? {
        ChildCorrect(h, o, s.program.value);
      }
      if s.inverse.Some? {
        ChildCorrect(h, o, s.inverse.value);
      }
    }
  }

  lemma {:induction false} ChildCorrect(h: Host, o: Settings, p: Program)
    requires Extensional(h) && AllParsed(p) && Compiles(o, p)
    ensures Correct(h, o, p)
    decreases p, 1
  {
    TemplateMeans(h, o, p);
    CodeIsClosure(h, o, Assemble(o, CompiledProgram(o, p)).value, p);
  }

  /** So the indices of a block find what its programs mean. */
  lemma KidsInPlace(h: Host, o: Settings, statements: seq<Statement>, n: nat)
    requires n < |statements| && AssembleAll(o, AllChildren(o, statements)).Ok?
    requires BlockIsCorrect(h, o, statements[n])
    ensures InPlace(h, o, AssembleAll(o, AllChildren(o, statements)).value, statements[n],
                    |AllChildren(o, statements[..n])|)
  {
    hide Closure;
    hide Code;
    hide CompiledProgram;
    hide Assemble;
    hide AssembleAll;
    ChildrenInPlace(o, statements, n);
    var s, base, cs := statements[n], |AllChildren(o, statements[..n])|, AllChildren(o, statements);
    if s.Block? {
      if s.program.Some? {
        AssembledAt(o, cs, ProgramIndex(s, base).value);
      }
      if s.inverse.Some? {
        AssembledAt(o, cs, InverseIndex(s, base).value);
      }
    }
  }

  lemma {:induction false} PrefixMeans(h: Host, o: Settings, statements: seq<Statement>, n: nat,
                                       kids: seq<JsFunction>, simple: bool, w: World)
    requires n <= |statements| && simple == (|statements| == 1)
    requires forall i :: 0 <= i < |statements| ==> Parsed(statements[i]) && StatementCompiles(o, statements[i])
    requires forall i :: 0 <= i < |statements| ==> InPlace(h, o, kids, statements[i], |AllChildren(o, statements[..i])|)
    ensures var r := ExecAll(o, simple, ProgramOps(o, statements[..n]), INITIAL);
            && r.Ok? && AtRest(r.value)
            && var out, mean := OutputOf(h, kids, simple, r.value, w), MeanProgram(h, o, statements[..n], w);
               && out.buffer == mean.0 && out.run.world == mean.1
               && (!simple ==> !out.returned)
    decreases n
  {
    hide StatementOps;
    hide MeanStatement;
    hide InPlace;
    hide Parsed;
    hide StatementCompiles;
    if n == 0 {
      assert statements[..0] == [];
      ExecNone(o, simple, INITIAL);
      assert DoAll(h, kids, simple, [], Output("", false, Run(map[], h.undefined, w)))
             == Output("", false, Run(map[], h.undefined, w));
    } else {
      var before, s := statements[..n - 1], statements[n - 1];
      assert statements[..n][..n - 1] == before && Front(statements[..n]) == before;
      var base := |AllChildren(o, before)|;
      PrefixMeans(h, o, statements, n - 1, kids, simple, w);
      var m := ExecAll(o, simple, ProgramOps(o, before), INITIAL).value;
      if simple {
        assert before == [];
        ExecNone(o, simple, INITIAL);
      }
      StatementAdds(h, o, kids, simple, s, base, m, w);
      ExecConcat(o, simple, ProgramOps(o, before), StatementOps(o, s, base), INITIAL);
    }
  }

  /**
   Meaning is preserved: for every template that compiles, every host and every state of
   its world, the generated function outputs what the template means and leaves the world
   as it should; and so, whoever calls them, do those of the programs of its blocks.
   */
  lemma {:induction false} TemplateMeans(h: Host, o: Settings, p: Program)
    requires Extensional(h) && AllParsed(p) && Compiles(o, p)
    ensures var u := Assemble(o, CompiledProgram(o, p));
            && u.Ok?
            && forall f: Frame, w: World ::
                 Ran(h.(frame := f), u.value, w) == MeanProgram(h.(frame := f), o, p.statements, w)
    decreases p, 0
  {
    hide Parsed;
    hide StatementCompiles;
    hide BlockIsCorrect;
    hide Ran;
    hide MeanProgram;
    hide Assemble;
    hide CompiledProgram;
    EveryTemplateAssembles(o, p);
    var u := Assemble(o, CompiledProgram(o, p)).value;
    forall f: Frame, w: World
      ensures Ran(h.(frame := f), u, w) == MeanProgram(h.(frame := f), o, p.statements, w)
    {
      forall i | 0 <= i < |p.statements|
        ensures BlockIsCorrect(h.(frame := f), o, p.statements[i])
      {
        BlockCorrect(h.(frame := f), o, p.statements[i]);
      }
      FunctionMeans(h.(frame := f), o, p, u, w);
    }
  }

  lemma FunctionMeans(h: Host, o: Settings, p: Program, u: JsFunction, w: World)
    requires AllParsed(p) && Compiles(o, p) && Assemble(o, CompiledProgram(o, p)) == Ok(u)
    requires forall i :: 0 <= i < |p.statements| ==> BlockIsCorrect(h, o, p.statements[i])
    ensures Ran(h, u, w) == MeanProgram(h, o, p.statements, w)
  {
    hide Parsed;
    hide StatementCompiles;
    hide BlockIsCorrect;
    hide InPlace;
    hide MeanProgram;
    hide AllChildren;
    hide AssembleAll;
    hide DoAll;
    hide ExecAll;
    hide ProgramOps;
    forall i | 0 <= i < |p.statements|
      ensures InPlace(h, o, u.children, p.statements[i], |AllChildren(o, p.statements[..i])|)
    {
      KidsInPlace(h, o, p.statements, i);
    }
    assert p.statements[..|p.statements|] == p.statements;
    PrefixMeans(h, o, p.statements, |p.statements|, u.children, u.isSimple, w);
  }
}
