/**
 Stack discipline: the opcodes of every tree drive the machine without an internal
 error, leave exactly their code on the stack, and end with empty stacks
 (handlebars-2.0.0.js:27-28).
 */
module HandlebarsDiscipline {
  import opened Wrappers
  import opened HandlebarsCompiler
  import opened HandlebarsMachine

  // ---------- The two stacks as one ----------

  /** The stack that the two represent: the inline stack lies on top. */
  function Logical(m: Machine): seq<Entry> { m.compileStack + m.inlineStack }

  /** The expressions on the compile stack stand in slots 1, 2, ... up to `stackSlot`. */
  predicate SlotsInOrder(es: seq<Entry>, n: nat) {
    if es == [] then n == 0
    else if Last(es).Plain? then SlotsInOrder(Front(es), n)
    else n > 0 && Last(es).value == Slot(n) && SlotsInOrder(Front(es), n - 1)
  }

  predicate Orderly(m: Machine) { SlotsInOrder(m.compileStack, m.stackSlot) }

  /** Popping takes the top of the one stack, and fails only if that is empty. */
  lemma PopIsPop(m: Machine)
    requires Orderly(m)
    ensures Pop(m).Ok? <==> Logical(m) != []
    ensures Pop(m).Ok? ==>
              && Orderly(Pop(m).value.1)
              && Pop(m).value.0 == Last(Logical(m)).value && Logical(Pop(m).value.1) == Front(Logical(m))
              && Top(m) == Ok(Pop(m).value.0)
  {
    if m.inlineStack != [] {
      assert Front(Logical(m)) == m.compileStack + Front(m.inlineStack);
    } else {
      assert Logical(m) == m.compileStack;
      if m.compileStack != [] {
        assert Front(m.compileStack) + [] == Front(m.compileStack);
      }
    }
  }

  lemma PushIsPush(m: Machine, e: Js)
    ensures Logical(Push(m, e)) == Logical(m) + [Computed(e)] && (Orderly(m) ==> Orderly(Push(m, e)))
    ensures Logical(PushLit(m, e)) == Logical(m) + [Plain(e)] && (Orderly(m) ==> Orderly(PushLit(m, e)))
  {
    assert Logical(Push(m, e)) == Logical(m) + [Computed(e)];
    assert Logical(PushLit(m, e)) == Logical(m) + [Plain(e)];
  }

  /** What flushing makes of the entries of the inline stack: each expression stands in a slot of its own. */
  function Slotted(es: seq<Entry>, n: nat): seq<Entry> {
    if es == [] then []
    else if es[0].Plain? then [es[0]] + Slotted(es[1..], n)
    else [Computed(Slot(n + 1))] + Slotted(es[1..], n + 1)
  }

  /** Flushing keeps the height of the stack and gives every expression a fresh slot, above all live ones. */
  lemma {:induction false} FlushIsOrderly(m: Machine, es: seq<Entry>)
    requires Orderly(m)
    ensures var f := AllToSlots(m, es);
            && Orderly(f) && f.inlineStack == m.inlineStack
            && f.compileStack == m.compileStack + Slotted(es, m.stackSlot)
            && f.stackSlot >= m.stackSlot
    decreases es
  {
    if es == [] {
      assert m.compileStack + [] == m.compileStack;
    } else {
      hide ToSlot;
      hide SlotsInOrder;
      var next := ToSlot(m, es[0]);
      var slotted := if es[0].Plain? then es[0] else Computed(Slot(m.stackSlot + 1));
      ToSlotIsOrderly(m, es[0]);
      FlushIsOrderly(next, es[1..]);
      var rest := Slotted(es[1..], next.stackSlot);
      assert m.compileStack + [slotted] + rest == m.compileStack + ([slotted] + rest);
    }
  }

  lemma ToSlotIsOrderly(m: Machine, e: Entry)
    requires Orderly(m)
    ensures var next := ToSlot(m, e); var slotted := if e.Plain? then e else Computed(Slot(m.stackSlot + 1));
            && Orderly(next) && next.inlineStack == m.inlineStack
            && next.compileStack == m.compileStack + [slotted]
            && next.stackSlot == m.stackSlot + if e.Plain? then 0 else 1
  {
    assert Front(ToSlot(m, e).compileStack) == m.compileStack;
  }

  // ---------- Every opcode keeps the stacks in order ----------

  lemma {:induction false} PopParamsOrderly(m: Machine, n: nat)
    requires Orderly(m)
    ensures PopParams(m, n).Ok? ==> Orderly(PopParams(m, n).value.1)
    decreases n
  {
    if n > 0 {
      PopIsPop(m);
      if Pop(m).Ok? {
        PopParamsOrderly(Pop(m).value.1, n - 1);
      }
    }
  }

  lemma OptionsOrderly(m: Machine, n: nat, name: string)
    requires Orderly(m)
    ensures SetupOptions(m, n, name).Ok? ==> Orderly(SetupOptions(m, n, name).value.2)
  {
    hide Pop;
    hide PopParams;
    hide Orderly;
    PopIsPop(m);
    if Pop(m).Ok? {
      var m1 := Pop(m).value.1;
      PopIsPop(m1);
      if Pop(m1).Ok? {
        var m2 := Pop(m1).value.1;
        PopIsPop(m2);
        if Pop(m2).Ok? {
          PopParamsOrderly(Pop(m2).value.1, n);
        }
      }
    }
  }

  lemma {:induction false} ReplaceOrderly(m: Machine, names: seq<string>, falsy: bool)
    requires Orderly(m)
    ensures ReplaceAll(m, names, falsy).Ok? ==> Orderly(ReplaceAll(m, names, falsy).value)
    decreases names
  {
    if names != [] && m.inlineStack != [] {
      ReplaceOrderly(ReplaceStack(m, names[0], falsy).value, names[1..], falsy);
    }
  }

  lemma LookupOrderly(m: Machine, o: Settings, parts: seq<string>, falsy: bool, scoped: bool)
    requires Orderly(m)
    ensures LookupOn(m, o, parts, falsy, scoped).Ok? ==> Orderly(LookupOn(m, o, parts, falsy, scoped).value)
  {
    ReplaceOrderly(PushLit(m, Context(m.lastContext)), parts, falsy);
    if parts != [] {
      ReplaceOrderly(Push(m, Depthed(parts[0])), parts[1..], falsy);
    }
  }

  lemma FlushAllOrderly(m: Machine)
    requires Orderly(m)
    ensures Orderly(FlushInline(m)) && |Logical(FlushInline(m))| == |Logical(m)|
  {
    FlushIsOrderly(m.(inlineStack := []), m.inlineStack);
    SlottedLength(m.inlineStack, m.stackSlot);
  }

  lemma {:induction false} SlottedLength(es: seq<Entry>, n: nat)
    ensures |Slotted(es, n)| == |es|
  {
    if es != [] {
      SlottedLength(es[1..], if es[0].Plain? then n else n + 1);
    }
  }

  lemma AppendOrderly(m: Machine, simple: bool)
    requires Orderly(m)
    ensures AppendTop(m, simple).Ok? ==> Orderly(AppendTop(m, simple).value)
  {
    hide FlushInline;
    hide Pop;
    FlushAllOrderly(m);
    PopIsPop(FlushInline(m));
  }

  /** The opcodes that take values off the stack. */
  predicate Takes(op: Op) {
    || op.ResolvePossibleLambda? || op.AssignToHash? || op.InvokeHelper? || op.InvokeKnownHelper?
    || op.InvokeAmbiguous? || op.BlockValue? || op.AmbiguousBlockValue? || op.InvokePartial? || op.AppendEscaped?
  }

  lemma TakingOrderly(o: Settings, simple: bool, op: Op, m: Machine)
    requires Orderly(m) && Takes(op) && Exec(o, simple, op, m).Ok?
    ensures Orderly(Exec(o, simple, op, m).value)
  {
    hide Pop;
    hide SetupOptions;
    hide FlushInline;
    hide SlotsInOrder;
    PopIsPop(m);
    match op
    case InvokeHelper(n, name, _) => OptionsOrderly(Pop(m).value.1, n, name);
    case InvokeKnownHelper(n, name) => OptionsOrderly(m, n, name);
    case InvokeAmbiguous(name, _) => OptionsOrderly(PushLit(Pop(m).value.1, Object([])), 0, name);
    case BlockValue(name) =>
      OptionsOrderly(m, 0, name);
      PopIsPop(SetupOptions(m, 0, name).value.2);
    case AmbiguousBlockValue =>
      OptionsOrderly(m, 0, "");
      FlushAllOrderly(SetupOptions(m, 0, "").value.2);
    case InvokePartial(_, _) => PopIsPop(Pop(m).value.1);
    case ResolvePossibleLambda =>
    case AssignToHash(_) =>
    case AppendEscaped =>
  }

  /** Every opcode that succeeds keeps the stacks in order. */
  lemma ExecIsOrderly(o: Settings, simple: bool, op: Op, m: Machine)
    requires Orderly(m) && Exec(o, simple, op, m).Ok?
    ensures Orderly(Exec(o, simple, op, m).value)
  {
    hide Pop;
    hide SetupOptions;
    hide FlushInline;
    hide ReplaceAll;
    hide LookupOn;
    hide AppendTop;
    hide SlotsInOrder;
    if Takes(op) {
      TakingOrderly(o, simple, op, m);
    } else {
      hide Takes;
      match op
      case LookupOnContext(parts, falsy, scoped) => LookupOrderly(m, o, parts, falsy, scoped);
      case LookupData(up, parts) => ReplaceOrderly(PushLit(m, Data(up)), parts, true);
      case Append => AppendOrderly(m, simple);
      case _ =>
    }
  }

  /** So does every sequence of opcodes, from the start on. */
  lemma {:induction false} RunIsOrderly(o: Settings, simple: bool, ops: seq<Op>)
    requires ExecAll(o, simple, ops, INITIAL).Ok?
    ensures Orderly(ExecAll(o, simple, ops, INITIAL).value)
    decreases |ops|
  {
    hide Exec;
    if ops != [] {
      RunIsOrderly(o, simple, Front(ops));
      ExecIsOrderly(o, simple, Last(ops), ExecAll(o, simple, Front(ops), INITIAL).value);
    }
  }

  lemma {:induction false} ThrowsOn(o: Settings, simple: bool, ops: seq<Op>, n: nat, m: Machine)
    requires n <= |ops| && ExecAll(o, simple, ops[..n], m).Throws?
    ensures ExecAll(o, simple, ops, m).Throws?
    decreases |ops|
  {
    if n == |ops| {
      assert ops[..n] == ops;
    } else {
      assert Front(ops)[..n] == ops[..n];
      ThrowsOn(o, simple, Front(ops), n, m);
    }
  }

  /**
   Between any two opcodes of a program that gets through, the two stacks are one: a pop
   takes its top and throws if and only if it is empty, a push adds to it, and a flush
   keeps its height.
   */
  lemma AlwaysOneStack(o: Settings, simple: bool, ops: seq<Op>, n: nat, e: Js)
    requires ExecAll(o, simple, ops, INITIAL).Ok? && n <= |ops|
    ensures ExecAll(o, simple, ops[..n], INITIAL).Ok?
    ensures var m := ExecAll(o, simple, ops[..n], INITIAL).value;
            && Orderly(m)
            && (Pop(m).Ok? <==> Logical(m) != [])
            && (Pop(m).Ok? ==>
                  && Pop(m).value.0 == Last(Logical(m)).value && Logical(Pop(m).value.1) == Front(Logical(m)))
            && Logical(Push(m, e)) == Logical(m) + [Computed(e)]
            && Logical(PushLit(m, e)) == Logical(m) + [Plain(e)]
            && |Logical(FlushInline(m))| == |Logical(m)|
  {
    hide Pop;
    hide Exec;
    hide FlushInline;
    hide Logical;
    hide Push;
    hide PushLit;
    if ExecAll(o, simple, ops[..n], INITIAL).Throws? {
      ThrowsOn(o, simple, ops, n, INITIAL);
    }
    RunIsOrderly(o, simple, ops[..n]);
    var m := ExecAll(o, simple, ops[..n], INITIAL).value;
    PopIsPop(m);
    PushIsPush(m, e);
    FlushAllOrderly(m);
  }

  // ---------- Sequences of opcodes ----------

  function Then(o: Settings, simple: bool, ops: seq<Op>, m: Try<Machine>): Try<Machine> {
    if m.Ok? then ExecAll(o, simple, ops, m.value) else Throws
  }

  lemma {:induction false} ExecConcat(o: Settings, simple: bool, a: seq<Op>, b: seq<Op>, m: Machine)
    ensures ExecAll(o, simple, a + b, m) == Then(o, simple, b, ExecAll(o, simple, a, m))
    decreases |b|
  {
    if b == [] {
      assert a + b == a;
    } else {
      assert Front(a + b) == a + Front(b) && Last(a + b) == Last(b);
      ExecConcat(o, simple, a, Front(b), m);
    }
  }

  lemma ExecOne(o: Settings, simple: bool, op: Op, m: Machine)
    ensures ExecAll(o, simple, [op], m) == Exec(o, simple, op, m)
  {
    assert Front([op]) == [];
    assert ExecAll(o, simple, [], m) == Ok(m);
  }

  /** One more opcode. */
  lemma ExecMore(o: Settings, simple: bool, a: seq<Op>, op: Op, m: Machine)
    ensures ExecAll(o, simple, a + [op], m) ==
            (var r := ExecAll(o, simple, a, m); if r.Ok? then Exec(o, simple, op, r.value) else Throws)
  {
    assert Front(a + [op]) == a;
  }

  // ---------- The code of an expression ----------

  function Guarded(e: Entry, name: string, falsy: bool): Entry {
    Computed(if e.Plain? then Guard(e.value, e.value, name, falsy)
             else Guard(Assign(1, e.value), Slot(1), name, falsy))
  }

  function Chain(e: Entry, names: seq<string>, falsy: bool): Entry
    decreases names
  {
    if names == [] then e else Chain(Guarded(e, names[0], falsy), names[1..], falsy)
  }

  function PathEntry(o: Settings, p: Path, falsy: bool): Entry {
    if p.scoped || !o.compat || p.depth != 0 || !Named(p) then
      Chain(Plain(Context(p.depth)), if Named(p) then p.parts else [], falsy)
    else Chain(Computed(Depthed(p.parts[0])), p.parts[1..], falsy)
  }

  function ExprEntry(o: Settings, e: Expr): Entry
    decreases e
  {
    match e
    case Id(p) => PathEntry(o, p, false)
    case DataId(up, names) => Chain(Plain(Data(up)), names, true)
    case StringLit(text) => Plain(Text(text))
    case PlainLit(text) => Plain(Literal(text))
    case Sub(s) => Computed(SexprCode(o, s, true, None, None))
  }

  function ParamEntries(o: Settings, params: seq<Expr>): seq<Entry>
    decreases params
  {
    if params == [] then [] else ParamEntries(o, Front(params)) + [ExprEntry(o, Last(params))]
  }

  function ValueEntries(o: Settings, pairs: seq<Pair>): seq<Entry>
    decreases pairs
  {
    if pairs == [] then [] else ValueEntries(o, Front(pairs)) + [ExprEntry(o, Last(pairs).value)]
  }

  function Values(es: seq<Entry>): seq<Js> {
    if es == [] then [] else Values(Front(es)) + [Last(es).value]
  }

  function Fields(o: Settings, pairs: seq<Pair>): seq<Field>
    decreases pairs
  {
    if pairs == [] then []
    else [Field(Last(pairs).key, ExprEntry(o, Last(pairs).value).value)] + Fields(o, Front(pairs))
  }

  function HashEntry(o: Settings, hash: Hash): Entry
    decreases hash
  {
    if hash.NoHash? then Plain(Object([])) else Computed(Object(Fields(o, hash.pairs)))
  }

  function BlockCode(index: Option<nat>, other: Option<nat>): Js {
    if index.Some? then ProgramOf(index.value) else if other.Some? then Noop else Null
  }

  function OptionsCode(name: string, hash: Js, program: Option<nat>, inverse: Option<nat>): Js {
    Options(name, hash, BlockCode(program, inverse), BlockCode(inverse, program))
  }

  function SexprCode(o: Settings, s: Sexpr, sub: bool, program: Option<nat>, inverse: Option<nat>): Js
    decreases s
  {
    match Classify(o, s, sub)
    case SimpleKind =>
      Lambda(if s.DataRef? then Chain(Plain(Data(s.up)), s.names, true).value else PathEntry(o, s.id, false).value)
    case AmbiguousKind =>
      InvokeFound(s.id.parts[0], PathEntry(o, s.id, false).value,
                  OptionsCode(s.id.parts[0], Object([]), program, inverse), program.Some? || inverse.Some?)
    case HelperKind =>
      if s.DataRef? then Undefined
      else
        var hash := HashEntry(o, s.hash).value;
        var params := Values(ParamEntries(o, s.params));
        if KnownName(o, s.id) then
          InvokeKnown(s.id.parts[0], params + [OptionsCode(s.id.parts[0], hash, program, inverse)])
        else
          Invoke(if IsSimpleId(s.id) then Some(s.id.original) else None, PathEntry(o, s.id, true).value,
                 params + [OptionsCode(s.id.original, hash, program, inverse)])
  }

  // ---------- Opcodes push the code ----------

  /** No slot is in use, and hashes are only set aside while another is built. */
  predicate Ready(m: Machine) { m.compileStack == [] && m.stackSlot == 0 && (m.hash.None? ==> m.hashes == []) }

  /** From `m` to `n`, exactly `es` was pushed; what else may have changed are the last context and helper. */
  predicate Pushed(m: Machine, es: seq<Entry>, n: Machine) {
    n == m.(inlineStack := m.inlineStack + es, lastContext := n.lastContext, lastHelper := n.lastHelper)
  }

  lemma PushedMore(m: Machine, es: seq<Entry>, n: Machine, fs: seq<Entry>, p: Machine)
    requires Pushed(m, es, n) && Pushed(n, fs, p)
    ensures Pushed(m, es + fs, p)
  {
    assert m.inlineStack + es + fs == m.inlineStack + (es + fs);
  }

  /** Look-ups replace the top; the slot they use is free before and after. */
  lemma {:induction false} ChainReplaces(m: Machine, e: Entry, names: seq<string>, falsy: bool)
    requires Ready(m)
    ensures ReplaceAll(m.(inlineStack := m.inlineStack + [e]), names, falsy)
            == Ok(m.(inlineStack := m.inlineStack + [Chain(e, names, falsy)]))
    decreases names
  {
    if names != [] {
      assert Front(m.inlineStack + [e]) == m.inlineStack;
      ChainReplaces(m, Guarded(e, names[0], falsy), names[1..], falsy);
    }
  }

  lemma PathPushes(o: Settings, simple: bool, p: Path, falsy: bool, m: Machine)
    requires Ready(m)
    ensures ExecAll(o, simple, IdOps(p, falsy), m)
            == Ok(m.(inlineStack := m.inlineStack + [PathEntry(o, p, falsy)], lastContext := p.depth))
  {
    var n := m.(lastContext := p.depth);
    ExecOne(o, simple, GetContext(p.depth), m);
    if !Named(p) {
      ExecMore(o, simple, [GetContext(p.depth)], PushContext, m);
    } else {
      ExecMore(o, simple, [GetContext(p.depth)], LookupOnContext(p.parts, falsy, p.scoped), m);
      ChainReplaces(n, Plain(Context(p.depth)), p.parts, falsy);
      ChainReplaces(n, Computed(Depthed(p.parts[0])), p.parts[1..], falsy);
    }
  }

  lemma DataPushes(o: Settings, simple: bool, up: nat, names: seq<string>, m: Machine)
    requires Ready(m)
    ensures ExecAll(o, simple, [LookupData(up, names)], m)
            == Ok(m.(inlineStack := m.inlineStack + [Chain(Plain(Data(up)), names, true)]))
  {
    ExecOne(o, simple, LookupData(up, names), m);
    ChainReplaces(m, Plain(Data(up)), names, true);
  }

  lemma {:induction false} ExprPushes(o: Settings, simple: bool, e: Expr, m: Machine)
    requires Ready(m) && ExprCompiles(o, e)
    ensures var r := ExecAll(o, simple, ExprOps(o, e), m); r.Ok? && Pushed(m, [ExprEntry(o, e)], r.value)
    decreases e
  {
    match e
    case Id(p) => PathPushes(o, simple, p, false, m);
    case DataId(up, names) => DataPushes(o, simple, up, names, m);
    case StringLit(text) => ExecOne(o, simple, PushString(text), m);
    case PlainLit(text) => ExecOne(o, simple, PushLiteral(text), m);
    case Sub(s) => SexprPushes(o, simple, s, true, None, None, m);
  }

  lemma {:induction false} ParamsPush(o: Settings, simple: bool, params: seq<Expr>, m: Machine)
    requires Ready(m)
    requires forall i :: 0 <= i < |params| ==> ExprCompiles(o, params[i])
    ensures var r := ExecAll(o, simple, ParamOps(o, params), m); r.Ok? && Pushed(m, ParamEntries(o, params), r.value)
    ensures |ParamEntries(o, params)| == |params|
    decreases params
  {
    if params != [] {
      ParamsPush(o, simple, Front(params), m);
      var n := ExecAll(o, simple, ParamOps(o, Front(params)), m).value;
      ExprPushes(o, simple, Last(params), n);
      ExecConcat(o, simple, ParamOps(o, Front(params)), ExprOps(o, Last(params)), m);
      PushedMore(m, ParamEntries(o, Front(params)), n, [ExprEntry(o, Last(params))],
                 ExecAll(o, simple, ExprOps(o, Last(params)), n).value);
    }
  }

  lemma {:induction false} ValuesPush(o: Settings, simple: bool, pairs: seq<Pair>, m: Machine)
    requires Ready(m)
    requires forall i :: 0 <= i < |pairs| ==> ExprCompiles(o, pairs[i].value)
    ensures var r := ExecAll(o, simple, ValueOps(o, pairs), m); r.Ok? && Pushed(m, ValueEntries(o, pairs), r.value)
    decreases pairs
  {
    if pairs != [] {
      ValuesPush(o, simple, Front(pairs), m);
      var n := ExecAll(o, simple, ValueOps(o, Front(pairs)), m).value;
      ExprPushes(o, simple, Last(pairs).value, n);
      ExecConcat(o, simple, ValueOps(o, Front(pairs)), ExprOps(o, Last(pairs).value), m);
      PushedMore(m, ValueEntries(o, Front(pairs)), n, [ExprEntry(o, Last(pairs).value)],
                 ExecAll(o, simple, ExprOps(o, Last(pairs).value), n).value);
    }
  }

  /** The values of a hash are taken off the stack, the last one first. */
  lemma {:induction false} AssignsTake(o: Settings, simple: bool, pairs: seq<Pair>, m: Machine, base: seq<Entry>)
    requires Ready(m) && m.hash.Some? && m.inlineStack == base + ValueEntries(o, pairs)
    ensures ExecAll(o, simple, AssignOps(pairs), m)
            == Ok(m.(inlineStack := base, hash := Some(m.hash.value + Fields(o, pairs))))
    decreases pairs
  {
    hide SetupOptions;
    hide LookupOn;
    hide ReplaceAll;
    hide AppendTop;
    hide FlushInline;
    hide ExecAll;
    hide ExprEntry;
    if pairs == [] {
      ExecNone(o, simple, m);
      assert m.hash.value + [] == m.hash.value && base + [] == base;
    } else {
      var field := Field(Last(pairs).key, ExprEntry(o, Last(pairs).value).value);
      var n := m.(inlineStack := base + ValueEntries(o, Front(pairs)), hash := Some(m.hash.value + [field]));
      assert Front(m.inlineStack) == n.inlineStack;
      ExecOne(o, simple, AssignToHash(Last(pairs).key), m);
      AssignsTake(o, simple, Front(pairs), n, base);
      ExecConcat(o, simple, [AssignToHash(Last(pairs).key)], AssignOps(Front(pairs)), m);
      assert m.hash.value + [field] + Fields(o, Front(pairs)) == m.hash.value + Fields(o, pairs);
    }
  }

  /** A new hash is begun; the one being built is set aside. */
  function HashBegun(m: Machine): Machine {
    m.(hashes := m.hashes + (if m.hash.Some? then [m.hash.value] else []), hash := Some([]))
  }

  /** The one set aside is taken up again. */
  lemma HashEnds(o: Settings, simple: bool, m: Machine, n: Machine, fields: seq<Field>)
    requires Ready(m)
    requires n == HashBegun(m).(hash := Some(fields), lastContext := n.lastContext, lastHelper := n.lastHelper)
    ensures var r := Exec(o, simple, PopHash, n); r.Ok? && Pushed(m, [Computed(Object(fields))], r.value)
  {
    if m.hash.Some? {
      assert Front(m.hashes + [m.hash.value]) == m.hashes;
    } else {
      assert m.hashes + [] == m.hashes;
    }
  }

  /** A hash leaves an enclosing hash that is being built as it was. */
  lemma {:induction false} HashPushes(o: Settings, simple: bool, hash: Hash, m: Machine)
    requires Ready(m) && HashCompiles(o, hash)
    ensures var r := ExecAll(o, simple, HashOps(o, hash), m); r.Ok? && Pushed(m, [HashEntry(o, hash)], r.value)
    decreases hash
  {
    if hash.NoHash? {
      ExecOne(o, simple, EmptyHash, m);
    } else {
      hide ExprEntry;
      hide ReplaceAll;
      hide LookupOn;
      hide SetupOptions;
      hide ValueOps;
      hide AssignOps;
      hide ValueEntries;
      hide ExecAll;
      var pairs := hash.pairs;
      ExecOne(o, simple, PushHash, m);
      hide Exec;
      var begun := HashBegun(m);
      HashBegins(o, simple, m);
      ValuesPush(o, simple, pairs, begun);
      var pushed := ExecAll(o, simple, ValueOps(o, pairs), begun).value;
      ExecConcat(o, simple, [PushHash], ValueOps(o, pairs), m);
      AssignsTake(o, simple, pairs, pushed, m.inlineStack);
      ExecConcat(o, simple, [PushHash] + ValueOps(o, pairs), AssignOps(pairs), m);
      assert [] + Fields(o, pairs) == Fields(o, pairs);
      var taken := pushed.(inlineStack := m.inlineStack, hash := Some(Fields(o, pairs)));
      HashEnds(o, simple, m, taken, Fields(o, pairs));
      ExecMore(o, simple, [PushHash] + ValueOps(o, pairs) + AssignOps(pairs), PopHash, m);
    }
  }

  lemma HashBegins(o: Settings, simple: bool, m: Machine)
    ensures Exec(o, simple, PushHash, m) == Ok(HashBegun(m))
    ensures Ready(m) ==> Ready(HashBegun(m))
  {
  }

  function RawCode(index: Option<nat>): Js { if index.Some? then ProgramOf(index.value) else Null }

  lemma ProgramsPush(o: Settings, simple: bool, program: Option<nat>, inverse: Option<nat>, m: Machine)
    ensures ExecAll(o, simple, [PushProgram(program), PushProgram(inverse)], m)
            == Ok(m.(inlineStack := m.inlineStack + [Plain(RawCode(program)), Plain(RawCode(inverse))]))
  {
    ExecOne(o, simple, PushProgram(program), m);
    ExecMore(o, simple, [PushProgram(program)], PushProgram(inverse), m);
    assert [PushProgram(program)] + [PushProgram(inverse)] == [PushProgram(program), PushProgram(inverse)];
    assert m.inlineStack + [Plain(RawCode(program))] + [Plain(RawCode(inverse))]
           == m.inlineStack + [Plain(RawCode(program)), Plain(RawCode(inverse))];
  }

  /** The parameters come off in reverse, and so reach the call in the order of the source. */
  lemma {:induction false} ParamsPop(m: Machine, base: seq<Entry>, es: seq<Entry>)
    requires m.inlineStack == base + es
    ensures PopParams(m, |es|) == Ok((Values(es), m.(inlineStack := base)))
    decreases es
  {
    if es == [] {
      assert base + es == base;
    } else {
      assert Front(m.inlineStack) == base + Front(es) && Last(m.inlineStack) == Last(es);
      ParamsPop(m.(inlineStack := base + Front(es)), base, Front(es));
    }
  }

  lemma OptionsPop(m: Machine, base: seq<Entry>, es: seq<Entry>, program: Option<nat>, inverse: Option<nat>,
                   hash: Entry, name: string)
    requires m.inlineStack == base + es + [Plain(RawCode(program)), Plain(RawCode(inverse))] + [hash]
    ensures SetupOptions(m, |es|, name)
            == Ok((Values(es), OptionsCode(name, hash.value, program, inverse), m.(inlineStack := base)))
  {
    hide Pop;
    hide PopParams;
    hide SetupOptions;
    hide OptionsCode;
    hide Values;
    var two := base + es + [Plain(RawCode(program)), Plain(RawCode(inverse))];
    var one := base + es + [Plain(RawCode(program))];
    assert two == one + [Plain(RawCode(inverse))];
    var m1, m2, m3 := m.(inlineStack := two), m.(inlineStack := one), m.(inlineStack := base + es);
    PopTop(m, two, hash);
    PopTop(m1, one, Plain(RawCode(inverse)));
    PopTop(m2, base + es, Plain(RawCode(program)));
    ParamsPop(m3, base, es);
    OptionsOf(m, m1, m2, m3, |es|, Values(es), program, inverse, hash.value, name, m.(inlineStack := base));
  }

  lemma OptionsOf(m: Machine, m1: Machine, m2: Machine, m3: Machine, n: nat, params: seq<Js>,
                  program: Option<nat>, inverse: Option<nat>, hash: Js, name: string, rest: Machine)
    requires Pop(m) == Ok((hash, m1)) && Pop(m1) == Ok((RawCode(inverse), m2)) && Pop(m2) == Ok((RawCode(program), m3))
    requires PopParams(m3, n) == Ok((params, rest))
    ensures SetupOptions(m, n, name) == Ok((params, OptionsCode(name, hash, program, inverse), rest))
  {
    hide Pop;
    hide PopParams;
  }

  lemma PopTop(m: Machine, base: seq<Entry>, e: Entry)
    requires m.inlineStack == base + [e]
    ensures Pop(m) == Ok((e.value, m.(inlineStack := base)))
  {
    assert Front(m.inlineStack) == base;
  }

  lemma SimplePushes(o: Settings, simple: bool, s: Sexpr, m: Machine)
    requires Ready(m) && Classify(o, s, false) == SimpleKind
    ensures var r := ExecAll(o, simple, SimpleOps(s), m);
            r.Ok? && Pushed(m, [Computed(SexprCode(o, s, false, None, None))], r.value)
  {
    var value := if s.DataRef? then [LookupData(s.up, s.names)] else IdOps(s.id, false);
    if s.DataRef? {
      DataPushes(o, simple, s.up, s.names, m);
    } else {
      PathPushes(o, simple, s.id, false, m);
    }
    var n := ExecAll(o, simple, value, m).value;
    assert Front(n.inlineStack) == m.inlineStack;
    ExecMore(o, simple, value, ResolvePossibleLambda, m);
  }

  lemma AmbiguousPushes(o: Settings, simple: bool, s: Sexpr, program: Option<nat>, inverse: Option<nat>, m: Machine)
    requires Ready(m) && Classify(o, s, false) == AmbiguousKind
    ensures var r := ExecAll(o, simple, SexprOps(o, s, false, program, inverse), m);
            && r.Ok? && Pushed(m, [Computed(SexprCode(o, s, false, program, inverse))], r.value)
            && r.value.lastHelper == s.id.parts[0]
  {
    hide SetupOptions;
    hide ReplaceAll;
    hide LookupOn;
    hide PathEntry;
    hide IdOps;
    hide ExecAll;
    var name, called := s.id.parts[0], program.Some? || inverse.Some?;
    var programs := [PushProgram(program), PushProgram(inverse)];
    var start := [GetContext(s.id.depth), PushProgram(program), PushProgram(inverse)];
    var m0 := m.(lastContext := s.id.depth);
    ExecOne(o, simple, GetContext(s.id.depth), m);
    ProgramsPush(o, simple, program, inverse, m0);
    ExecConcat(o, simple, [GetContext(s.id.depth)], programs, m);
    assert start == [GetContext(s.id.depth)] + programs;
    var m1 := ExecAll(o, simple, start, m).value;
    PathPushes(o, simple, s.id, false, m1);
    ExecConcat(o, simple, start, IdOps(s.id, false), m);
    var m2 := ExecAll(o, simple, start + IdOps(s.id, false), m).value;
    assert Front(m2.inlineStack) == m1.inlineStack;
    var m3 := PushLit(m2.(inlineStack := m1.inlineStack), Object([]));
    assert m.inlineStack + [] == m.inlineStack;
    OptionsPop(m3, m.inlineStack, [], program, inverse, Plain(Object([])), name);
    ExecMore(o, simple, start + IdOps(s.id, false), InvokeAmbiguous(name, called), m);
  }

  lemma {:induction false} HelperPushes(o: Settings, simple: bool, s: Sexpr, sub: bool,
                                        program: Option<nat>, inverse: Option<nat>, m: Machine)
    requires Ready(m) && Classify(o, s, sub) == HelperKind && SexprCompiles(o, s, sub)
    ensures var r := ExecAll(o, simple, SexprOps(o, s, sub, program, inverse), m);
            r.Ok? && Pushed(m, [Computed(SexprCode(o, s, sub, program, inverse))], r.value)
    decreases s, 0
  {
    hide SetupOptions;
    hide ReplaceAll;
    hide LookupOn;
    hide ParamOps;
    hide HashOps;
    hide ExecAll;
    hide PathEntry;
    hide ParamEntries;
    hide HashEntry;
    var params, programs := ParamOps(o, s.params), [PushProgram(program), PushProgram(inverse)];
    var entries := ParamEntries(o, s.params);
    ParamsPush(o, simple, s.params, m);
    var m1 := ExecAll(o, simple, params, m).value;
    ProgramsPush(o, simple, program, inverse, m1);
    ExecConcat(o, simple, params, programs, m);
    var m2 := ExecAll(o, simple, params + programs, m).value;
    HashPushes(o, simple, s.hash, m2);
    ExecConcat(o, simple, params + programs, HashOps(o, s.hash), m);
    var m3 := ExecAll(o, simple, params + programs + HashOps(o, s.hash), m).value;
    var name := if KnownName(o, s.id) then s.id.parts[0] else s.id.original;
    OptionsPop(m3, m.inlineStack, entries, program, inverse, HashEntry(o, s.hash), name);
    if KnownName(o, s.id) {
      ExecMore(o, simple, params + programs + HashOps(o, s.hash), InvokeKnownHelper(|s.params|, name), m);
    } else {
      FoundPushes(o, simple, s, sub, program, inverse, m, m3);
    }
  }

  /** The last part of the call of a helper that is not known: the helper is looked up and called. */
  lemma FoundPushes(o: Settings, simple: bool, s: Sexpr, sub: bool, program: Option<nat>, inverse: Option<nat>,
                    m: Machine, m3: Machine)
    requires Ready(m) && Classify(o, s, sub) == HelperKind && s.Call? && !KnownName(o, s.id)
    requires var ops := ParamOps(o, s.params) + [PushProgram(program), PushProgram(inverse)] + HashOps(o, s.hash);
             ExecAll(o, simple, ops, m) == Ok(m3)
    requires m3 == m.(inlineStack := m3.inlineStack, lastContext := m3.lastContext, lastHelper := m3.lastHelper)
    requires |ParamEntries(o, s.params)| == |s.params|
    requires m3.inlineStack == m.inlineStack + ParamEntries(o, s.params)
                               + [Plain(RawCode(program)), Plain(RawCode(inverse))] + [HashEntry(o, s.hash)]
    ensures var r := ExecAll(o, simple, SexprOps(o, s, sub, program, inverse), m);
            r.Ok? && Pushed(m, [Computed(SexprCode(o, s, sub, program, inverse))], r.value)
  {
    hide ParamOps;
    hide HashOps;
    hide SetupOptions;
    hide ReplaceAll;
    hide OptionsCode;
    hide ParamEntries;
    hide HashEntry;
    hide Values;
    hide PathEntry;
    hide IdOps;
    hide ExecAll;
    hide LookupOn;
    var ops := ParamOps(o, s.params) + [PushProgram(program), PushProgram(inverse)] + HashOps(o, s.hash);
    var invoke := InvokeHelper(|s.params|, s.id.original, IsSimpleId(s.id));
    PathPushes(o, simple, s.id, true, m3);
    ExecConcat(o, simple, ops, IdOps(s.id, true), m);
    var m4 := ExecAll(o, simple, ops + IdOps(s.id, true), m).value;
    var back := m4.(inlineStack := m3.inlineStack);
    assert Front(m4.inlineStack) == m3.inlineStack;
    OptionsPop(back, m.inlineStack, ParamEntries(o, s.params), program, inverse, HashEntry(o, s.hash), s.id.original);
    ExecMore(o, simple, ops + IdOps(s.id, true), invoke, m);
    assert ops + IdOps(s.id, true) + [invoke] == ops + (IdOps(s.id, true) + [invoke]);
  }

  lemma SexprPushes(o: Settings, simple: bool, s: Sexpr, sub: bool, program: Option<nat>, inverse: Option<nat>,
                    m: Machine)
    requires Ready(m) && SexprCompiles(o, s, sub)
    requires Classify(o, s, sub) == SimpleKind ==> program.None? && inverse.None?
    ensures var r := ExecAll(o, simple, SexprOps(o, s, sub, program, inverse), m);
            r.Ok? && Pushed(m, [Computed(SexprCode(o, s, sub, program, inverse))], r.value)
    decreases s, 1
  {
    match Classify(o, s, sub)
    case SimpleKind => SimplePushes(o, simple, s, m);
    case AmbiguousKind => AmbiguousPushes(o, simple, s, program, inverse, m);
    case HelperKind => HelperPushes(o, simple, s, sub, program, inverse, m);
  }

  // ---------- Statements ----------

  /** The value of a block whose head is not ambiguous. */
  function HeadCode(o: Settings, head: Head, program: Option<nat>, inverse: Option<nat>): Js {
    if Classify(o, head, false) == SimpleKind then
      BlockMissing(SexprCode(o, head, false, None, None), OptionsCode(head.id.original, Object([]), program, inverse))
    else SexprCode(o, head, false, program, inverse)
  }

  function PartialCode(o: Settings, s: Statement): Js
    requires s.PartialCall?
  {
    InvokePartialOf(s.name, s.indent,
                    if s.context.Some? then ExprEntry(o, s.context.value).value else Context(0),
                    if s.hash.HashOf? then HashEntry(o, s.hash).value else Undefined)
  }

  /** The code that shows what is in slot 1. */
  function ShowCode(simple: bool): seq<Stmt> {
    [EmitUnlessNull(Slot(1))] + if simple then [ElseEmpty] else []
  }

  function StatementCode(o: Settings, simple: bool, s: Statement, base: nat): seq<Stmt>
    requires !s.Content? && !s.Comment?
  {
    match s
    case Mustache(sexpr, escaped) =>
      var code := SexprCode(o, sexpr, false, None, None);
      if escaped && !o.noEscape then [EmitEscaped(code)] else [SetSlot(1, code)] + ShowCode(simple)
    case Block(head, _, _) =>
      [SetSlot(1, HeadCode(o, head, ProgramIndex(s, base), InverseIndex(s, base)))]
      + (if Classify(o, head, false) == AmbiguousKind
         then [IfNoHelper(head.id.parts[0], Slot(1), Slot(1), OptionsVar)] else [])
      + ShowCode(simple)
    case PartialCall(_, _, _, _) => [SetSlot(1, PartialCode(o, s))] + ShowCode(simple)
  }

  /** Between two statements nothing is on the stacks. */
  predicate AtRest(m: Machine) { Ready(m) && m.inlineStack == [] }

  /** From `m` to `n`, exactly `code` was written, after what was pending. */
  predicate Wrote(m: Machine, code: seq<Stmt>, n: Machine) {
    n == m.(source := Flushed(m).source + code, pendingContent := "",
    lastContext := n.lastContext, lastHelper := n.lastHelper)
  }

  /** The statement of one computed value: it goes to slot 1, is shown, and the slot is given back. */
  lemma AppendShows(o: Settings, simple: bool, m: Machine, code: Js, n: Machine)
    requires AtRest(m) && Pushed(m, [Computed(code)], n)
    ensures var r := Exec(o, simple, Append, n);
            r.Ok? && AtRest(r.value) && Wrote(m, [SetSlot(1, code)] + ShowCode(simple), r.value)
  {
    var es := [Computed(code)];
    assert m.inlineStack + es == es && es[1..] == [];
    var moved := ToSlot(n.(inlineStack := []), es[0]);
    assert AllToSlots(n.(inlineStack := []), es) == moved;
    assert moved.compileStack == [Computed(Slot(1))] && Front(moved.compileStack) == [];
    assert moved.source == Flushed(m).source + [SetSlot(1, code)];
    var popped := moved.(compileStack := [], stackSlot := 0);
    assert Pop(moved) == Ok((Slot(1), popped));
    SourceGrows(moved.source, simple, [SetSlot(1, code)], Flushed(m).source);
  }

  lemma SourceGrows(source: seq<Stmt>, simple: bool, code: seq<Stmt>, before: seq<Stmt>)
    requires source == before + code
    ensures source + [EmitUnlessNull(Slot(1))] + (if simple then [ElseEmpty] else [])
            == before + (code + ShowCode(simple))
  {
  }

  lemma EscapedShows(o: Settings, simple: bool, m: Machine, code: Js, n: Machine)
    requires AtRest(m) && Pushed(m, [Computed(code)], n)
    ensures var r := Exec(o, simple, AppendEscaped, n);
            r.Ok? && AtRest(r.value) && Wrote(m, [EmitEscaped(code)], r.value)
  {
    assert m.inlineStack + [Computed(code)] == [Computed(code)];
    assert Front(n.inlineStack) == [];
  }

  lemma TriplePushes(o: Settings, simple: bool, program: Option<nat>, inverse: Option<nat>, m: Machine)
    ensures ExecAll(o, simple, [PushProgram(program), PushProgram(inverse), EmptyHash], m)
            == Ok(m.(inlineStack := m.inlineStack + [Plain(RawCode(program)), Plain(RawCode(inverse))]
                                    + [Plain(Object([]))]))
  {
    ProgramsPush(o, simple, program, inverse, m);
    ExecMore(o, simple, [PushProgram(program), PushProgram(inverse)], EmptyHash, m);
    assert [PushProgram(program), PushProgram(inverse)] + [EmptyHash]
           == [PushProgram(program), PushProgram(inverse), EmptyHash];
  }

  /** A block that is not ambiguous: its value is pushed. */
  lemma BlockPushes(o: Settings, simple: bool, head: Head, program: Option<nat>, inverse: Option<nat>, m: Machine)
    requires Ready(m) && Classify(o, head, false) != AmbiguousKind && SexprCompiles(o, head, false)
    ensures var r := ExecAll(o, simple, BlockOps(o, head, program, inverse), m);
            r.Ok? && Pushed(m, [Computed(HeadCode(o, head, program, inverse))], r.value)
  {
    hide SexprOps;
    hide SexprCode;
    hide SimpleOps;
    hide SetupOptions;
    hide ExecAll;
    hide ReplaceAll;
    if Classify(o, head, false) == HelperKind {
      SexprPushes(o, simple, head, false, program, inverse, m);
    } else {
      var three := [PushProgram(program), PushProgram(inverse), EmptyHash];
      SimplePushes(o, simple, head, m);
      var n := ExecAll(o, simple, SimpleOps(head), m).value;
      TriplePushes(o, simple, program, inverse, n);
      ExecConcat(o, simple, SimpleOps(head), three, m);
      var k := ExecAll(o, simple, SimpleOps(head) + three, m).value;
      assert n.inlineStack + [] == n.inlineStack;
      OptionsPop(k, n.inlineStack, [], program, inverse, Plain(Object([])), head.id.original);
      assert Front(n.inlineStack) == m.inlineStack;
      ExecMore(o, simple, SimpleOps(head) + three, BlockValue(head.id.original), m);
    }
  }

  /** An ambiguous block: its value goes to slot 1, and blockHelperMissing may replace it there. */
  lemma AmbiguousBlockWrites(o: Settings, simple: bool, head: Head, program: Option<nat>, inverse: Option<nat>,
                             m: Machine)
    requires AtRest(m) && Classify(o, head, false) == AmbiguousKind
    ensures var r := ExecAll(o, simple, BlockOps(o, head, program, inverse), m);
            var code := [SetSlot(1, SexprCode(o, head, false, program, inverse)),
                         IfNoHelper(head.id.parts[0], Slot(1), Slot(1), OptionsVar)];
            && r.Ok? && r.value.inlineStack == []
            && r.value.compileStack == [Computed(Slot(1))] && r.value.stackSlot == 1
            && Wrote(m, code, r.value.(compileStack := [], stackSlot := 0))
  {
    hide SexprOps;
    hide SetupOptions;
    hide ExecAll;
    hide ReplaceAll;
    hide SexprCode;
    var three := [PushProgram(program), PushProgram(inverse), EmptyHash];
    var ops := SexprOps(o, head, false, program, inverse);
    var code := SexprCode(o, head, false, program, inverse);
    AmbiguousPushes(o, simple, head, program, inverse, m);
    var n := ExecAll(o, simple, ops, m).value;
    TriplePushes(o, simple, program, inverse, n);
    ExecConcat(o, simple, ops, three, m);
    var k := ExecAll(o, simple, ops + three, m).value;
    assert n.inlineStack + [] == n.inlineStack;
    OptionsPop(k, n.inlineStack, [], program, inverse, Plain(Object([])), "");
    assert m.inlineStack + [Computed(code)] == [Computed(code)];
    assert [Computed(code)][1..] == [];
    var moved := ToSlot(n.(inlineStack := []), Computed(code));
    assert AllToSlots(n.(inlineStack := []), [Computed(code)]) == moved;
    assert moved.compileStack == [Computed(Slot(1))];
    ExecMore(o, simple, ops + three, AmbiguousBlockValue, m);
    assert moved.source + [IfNoHelper(head.id.parts[0], Slot(1), Slot(1), OptionsVar)]
           == Flushed(m).source + [SetSlot(1, code), IfNoHelper(head.id.parts[0], Slot(1), Slot(1), OptionsVar)];
  }

  lemma AmbiguousShows(o: Settings, simple: bool, m: Machine, code: seq<Stmt>, n: Machine)
    requires AtRest(m) && n.inlineStack == [] && n.compileStack == [Computed(Slot(1))] && n.stackSlot == 1
    requires Wrote(m, code, n.(compileStack := [], stackSlot := 0))
    ensures var r := Exec(o, simple, Append, n);
            r.Ok? && AtRest(r.value) && Wrote(m, code + ShowCode(simple), r.value)
  {
    assert Front(n.compileStack) == [];
    SourceGrows(n.source, simple, code, Flushed(m).source);
  }

  function PartialHashOps(o: Settings, s: Statement): seq<Op>
    requires s.PartialCall?
  {
    if s.hash.HashOf? then HashOps(o, s.hash) else [PushUndefined]
  }

  function PartialContextOps(o: Settings, s: Statement): seq<Op>
    requires s.PartialCall?
  {
    if s.context.Some? then ExprOps(o, s.context.value) else [GetContext(0), PushContext]
  }

  function PartialEntries(o: Settings, s: Statement): seq<Entry>
    requires s.PartialCall?
  {
    [if s.hash.HashOf? then HashEntry(o, s.hash) else Computed(Undefined)]
    + [if s.context.Some? then ExprEntry(o, s.context.value) else Plain(Context(0))]
  }

  lemma PartialArguments(o: Settings, simple: bool, s: Statement, m: Machine)
    requires Ready(m) && s.PartialCall? && StatementCompiles(o, s)
    ensures var r := ExecAll(o, simple, PartialHashOps(o, s) + PartialContextOps(o, s), m);
            r.Ok? && Pushed(m, PartialEntries(o, s), r.value)
  {
    hide HashOps;
    hide ExprOps;
    hide ExecAll;
    hide ReplaceAll;
    hide ExprEntry;
    hide HashEntry;
    var first, second := PartialHashOps(o, s), PartialContextOps(o, s);
    if s.hash.HashOf? {
      HashPushes(o, simple, s.hash, m);
    } else {
      ExecOne(o, simple, PushUndefined, m);
    }
    var n := ExecAll(o, simple, first, m).value;
    if s.context.Some? {
      ExprPushes(o, simple, s.context.value, n);
    } else {
      ExecOne(o, simple, GetContext(0), n);
      ExecMore(o, simple, [GetContext(0)], PushContext, n);
      assert [GetContext(0)] + [PushContext] == second;
    }
    ExecConcat(o, simple, first, second, m);
    PushedMore(m, PartialEntries(o, s)[..1], n, PartialEntries(o, s)[1..], ExecAll(o, simple, second, n).value);
    assert PartialEntries(o, s)[..1] + PartialEntries(o, s)[1..] == PartialEntries(o, s);
  }

  lemma PartialPushes(o: Settings, simple: bool, s: Statement, base: nat, m: Machine)
    requires Ready(m) && s.PartialCall? && StatementCompiles(o, s)
    ensures var ops := StatementOps(o, s, base);
            && ops != [] && Last(ops) == Append
            && var r := ExecAll(o, simple, Front(ops), m);
               r.Ok? && Pushed(m, [Computed(PartialCode(o, s))], r.value)
  {
    hide HashOps;
    hide ExprOps;
    hide ExecAll;
    hide ExprEntry;
    hide HashEntry;
    var both := PartialHashOps(o, s) + PartialContextOps(o, s);
    PartialArguments(o, simple, s, m);
    var k := ExecAll(o, simple, both, m).value;
    assert Front(Front(k.inlineStack)) == m.inlineStack;
    ExecMore(o, simple, both, InvokePartial(s.name, s.indent), m);
    assert StatementOps(o, s, base) == both + [InvokePartial(s.name, s.indent)] + [Append];
    assert Front(StatementOps(o, s, base)) == both + [InvokePartial(s.name, s.indent)];
  }

  /** What a statement does to the machine. */
  lemma StatementRuns(o: Settings, simple: bool, s: Statement, base: nat, m: Machine)
    requires AtRest(m) && StatementCompiles(o, s)
    ensures var r := ExecAll(o, simple, StatementOps(o, s, base), m);
            && r.Ok? && AtRest(r.value)
            && if s.Content? then r.value == m.(pendingContent := m.pendingContent + s.text)
               else if s.Comment? then r.value == m
               else Wrote(m, StatementCode(o, simple, s, base), r.value)
  {
    hide ExecAll;
    hide SexprOps;
    hide SexprCode;
    hide BlockOps;
    hide ExprOps;
    hide HashOps;
    hide AppendTop;
    match s
    case Content(text) =>
      ExecNone(o, simple, m);
      ExecOne(o, simple, AppendContent(text), m);
      if text == "" {
        assert m.pendingContent + text == m.pendingContent;
      }
    case Comment => ExecNone(o, simple, m);
    case Mustache(sexpr, escaped) =>
      var ops, code := SexprOps(o, sexpr, false, None, None), SexprCode(o, sexpr, false, None, None);
      SexprPushes(o, simple, sexpr, false, None, None, m);
      var n := ExecAll(o, simple, ops, m).value;
      if escaped && !o.noEscape {
        EscapedShows(o, simple, m, code, n);
        ExecMore(o, simple, ops, AppendEscaped, m);
      } else {
        AppendShows(o, simple, m, code, n);
        ExecMore(o, simple, ops, Append, m);
      }
    case Block(head, _, _) => BlockRuns(o, simple, s, base, m);
    case PartialCall(_, _, _, _) =>
      PartialPushes(o, simple, s, base, m);
      var ops := StatementOps(o, s, base);
      AppendShows(o, simple, m, PartialCode(o, s), ExecAll(o, simple, Front(ops), m).value);
      assert ops == Front(ops) + [Append];
      ExecMore(o, simple, Front(ops), Append, m);
  }

  lemma ExecNone(o: Settings, simple: bool, m: Machine)
    ensures ExecAll(o, simple, [], m) == Ok(m)
  {
  }

  lemma BlockRuns(o: Settings, simple: bool, s: Statement, base: nat, m: Machine)
    requires AtRest(m) && s.Block? && StatementCompiles(o, s)
    ensures var r := ExecAll(o, simple, StatementOps(o, s, base), m);
            r.Ok? && AtRest(r.value) && Wrote(m, StatementCode(o, simple, s, base), r.value)
  {
    hide ExecAll;
    hide SexprOps;
    hide SexprCode;
    hide BlockOps;
    hide AppendTop;
    var program, inverse := ProgramIndex(s, base), InverseIndex(s, base);
    var ops := BlockOps(o, s.head, program, inverse);
    if Classify(o, s.head, false) == AmbiguousKind {
      AmbiguousBlockWrites(o, simple, s.head, program, inverse, m);
      var code := [SetSlot(1, SexprCode(o, s.head, false, program, inverse)),
                   IfNoHelper(s.head.id.parts[0], Slot(1), Slot(1), OptionsVar)];
      AmbiguousShows(o, simple, m, code, ExecAll(o, simple, ops, m).value);
      assert StatementCode(o, simple, s, base) == code + ShowCode(simple);
    } else {
      BlockPushes(o, simple, s.head, program, inverse, m);
      AppendShows(o, simple, m, HeadCode(o, s.head, program, inverse), ExecAll(o, simple, ops, m).value);
      assert StatementCode(o, simple, s, base)
             == [SetSlot(1, HeadCode(o, s.head, program, inverse))] + ShowCode(simple);
    }
    ExecMore(o, simple, ops, Append, m);
  }

  lemma {:induction false} ProgramRuns(o: Settings, simple: bool, statements: seq<Statement>)
    requires forall i :: 0 <= i < |statements| ==> StatementCompiles(o, statements[i])
    ensures var r := ExecAll(o, simple, ProgramOps(o, statements), INITIAL); r.Ok? && AtRest(r.value)
    decreases statements
  {
    hide StatementOps;
    if statements == [] {
      ExecNone(o, simple, INITIAL);
    } else {
      var before := statements[..|statements| - 1];
      var base := |AllChildren(o, before)|;
      ProgramRuns(o, simple, before);
      var m := ExecAll(o, simple, ProgramOps(o, before), INITIAL).value;
      StatementRuns(o, simple, statements[|statements| - 1], base, m);
      ExecConcat(o, simple, ProgramOps(o, before), StatementOps(o, statements[|statements| - 1], base), INITIAL);
    }
  }

  /**
   Stack discipline. Whatever the tree, if it compiles, running the opcodes of a program raises no
   internal error, and nothing is left on the stacks.
   */
  lemma NothingIsLeft(o: Settings, p: Program)
    requires Compiles(o, p)
    ensures Generate(o, CompiledProgram(o, p)).Ok?
  {
    ProgramRuns(o, |p.statements| == 1, p.statements);
  }
}
