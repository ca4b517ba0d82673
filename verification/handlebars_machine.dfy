/**
 The second half of the template compiler: opcodes drive a machine with two stacks
 that writes JavaScript (handlebars-2.0.0.js:28, `JavaScriptCompiler`). The text that
 it writes is a tree here.
 */
module HandlebarsMachine {
  import opened Wrappers
  import opened HandlebarsCompiler

  // ---------- What is written ----------

  datatype Js =
    | Context(depth: nat)                       // depth0, or depths[n]
    | Data(up: nat)                             // data, or this.data(data, n)
    | Depthed(name: string)                     // lookup(depths, name)
    | Text(text: string) | Literal(text: string) | Undefined | Null
    | ProgramOf(index: nat) | Noop
    | Slot(n: nat)                              // stackN
    | Assign(n: nat, value: Js)                 // (stackN = value)
    // prefix && item.name, or prefix != null ? item.name : item
    | Guard(prefix: Js, item: Js, name: string, falsy: bool)
    | Object(fields: seq<Field>)
    | Options(name: string, hash: Js, fn: Js, inverse: Js)     // no blocks if both are Null
    | OptionsVar
    | Lambda(value: Js)                         // lambda(value, depth0)
    // ((helpers.named || found || helperMissing).call(depth0, args))
    | Invoke(named: Option<string>, found: Js, args: seq<Js>)
    | InvokeKnown(name: string, args: seq<Js>)                 // helpers.name.call(depth0, args)
    | InvokeFound(name: string, found: Js, options: Js, keep: bool)   // the ambiguous form; `keep`: options = ...
    | BlockMissing(value: Js, options: Js)      // blockHelperMissing.call(depth0, value, options)
    | InvokePartialOf(name: string, indent: string, context: Js, hash: Js)

  datatype Field = Field(key: string, value: Js)

  datatype Stmt =
    | EmitText(text: string)                    // the content, quoted
    | EmitUnlessNull(value: Js)                 // if (value != null) { ... value ... }
    | ElseEmpty                                 // else { ... '' ... }
    | EmitEscaped(value: Js)
    | SetSlot(n: nat, value: Js)
    // if (!helpers.helper) { target = blockHelperMissing... }
    | IfNoHelper(helper: string, target: Js, value: Js, options: Js)

  // ---------- The machine ----------

  /** What stands on a stack: text that may be repeated freely, or an expression. */
  datatype Entry = Plain(value: Js) | Computed(value: Js)

  datatype Machine = Machine(
    inlineStack: seq<Entry>, compileStack: seq<Entry>, stackSlot: nat,
    hash: Option<seq<Field>>, hashes: seq<seq<Field>>,
    lastContext: nat, lastHelper: string, pendingContent: string, source: seq<Stmt>)

  const INITIAL := Machine([], [], 0, None, [], 0, "", "", [])

  function Push(m: Machine, e: Js): Machine { m.(inlineStack := m.inlineStack + [Computed(e)]) }

  function PushLit(m: Machine, e: Js): Machine { m.(inlineStack := m.inlineStack + [Plain(e)]) }

  function Last<T>(s: seq<T>): T requires s != [] { s[|s| - 1] }
  function Front<T>(s: seq<T>): seq<T> requires s != [] { s[..|s| - 1] }

  /** Pops the top of the two stacks; a slot is given back. */
  function Pop(m: Machine): Try<(Js, Machine)> {
    if m.inlineStack != [] then Ok((Last(m.inlineStack).value, m.(inlineStack := Front(m.inlineStack))))
    else if m.compileStack == [] then Throws
    else
      var rest := m.(compileStack := Front(m.compileStack));
      if Last(m.compileStack).Plain? then Ok((Last(m.compileStack).value, rest))
      else if m.stackSlot == 0 then Throws
      else Ok((Last(m.compileStack).value, rest.(stackSlot := m.stackSlot - 1)))
  }

  function Top(m: Machine): Try<Js> {
    if m.inlineStack != [] then Ok(Last(m.inlineStack).value)
    else if m.compileStack != [] then Ok(Last(m.compileStack).value)
    else Throws
  }

  function Flushed(m: Machine): Machine {
    if m.pendingContent == "" then m
    else m.(source := m.source + [EmitText(m.pendingContent)], pendingContent := "")
  }

  function PushSource(m: Machine, s: Stmt): Machine {
    var f := Flushed(m);
    f.(source := f.source + [s])
  }

  /** Moves an entry to the compile stack; an expression gets a slot. */
  function ToSlot(m: Machine, e: Entry): Machine {
    if e.Plain? then m.(compileStack := m.compileStack + [e])
    else
      var n := m.stackSlot + 1;
      PushSource(m.(stackSlot := n), SetSlot(n, e.value))
      .(compileStack := m.compileStack + [Computed(Slot(n))])
  }

  function AllToSlots(m: Machine, es: seq<Entry>): Machine
    decreases es
  {
    if es == [] then m else AllToSlots(ToSlot(m, es[0]), es[1..])
  }

  function FlushInline(m: Machine): Machine {
    AllToSlots(m.(inlineStack := []), m.inlineStack)
  }

  /** Replaces the top by a guarded look-up of `name` in it; what is no literal is kept in a slot for that. */
  function ReplaceStack(m: Machine, name: string, falsy: bool): Try<Machine> {
    if m.inlineStack == [] then Throws
    else
      var top := Last(m.inlineStack);
      var rest := m.(inlineStack := Front(m.inlineStack));
      if top.Plain? then Ok(Push(rest, Guard(top.value, top.value, name, falsy)))
      else
        var n := if m.stackSlot == 0 then 1 else m.stackSlot;
        Ok(Push(rest, Guard(Assign(n, top.value), Slot(n), name, falsy)))
  }

  function ReplaceAll(m: Machine, names: seq<string>, falsy: bool): Try<Machine>
    decreases names
  {
    if names == [] then Ok(m)
    else
      var next :- ReplaceStack(m, names[0], falsy);
      ReplaceAll(next, names[1..], falsy)
  }

  /** Pops `n` parameters, the last one first. */
  function PopParams(m: Machine, n: nat): Try<(seq<Js>, Machine)>
    decreases n
  {
    if n == 0 then Ok(([], m))
    else
      var popped :- Pop(m);
      var others :- PopParams(popped.1, n - 1);
      Ok((others.0 + [popped.0], others.1))
  }

  /** Pops the hash, the two programs and the parameters of a call of helper `name`. */
  function SetupOptions(m: Machine, n: nat, name: string): Try<(seq<Js>, Js, Machine)> {
    var hash :- Pop(m);
    var inverse :- Pop(hash.1);
    var fn :- Pop(inverse.1);
    var params :- PopParams(fn.1, n);
    var blocks := fn.0 != Null || inverse.0 != Null;
    var options := Options(name, hash.0,
                           if blocks && fn.0 == Null then Noop else fn.0,
                           if blocks && inverse.0 == Null then Noop else inverse.0);
    Ok((params.0, options, params.1))
  }

  function AppendTop(m: Machine, isSimple: bool): Try<Machine> {
    var popped :- Pop(FlushInline(m));
    var shown := PushSource(popped.1, EmitUnlessNull(popped.0));
    Ok(if isSimple then PushSource(shown, ElseEmpty) else shown)
  }

  function LookupOn(m: Machine, o: Settings, parts: seq<string>, falsy: bool, scoped: bool): Try<Machine> {
    if scoped || !o.compat || m.lastContext != 0 || parts == [] then
      ReplaceAll(PushLit(m, Context(m.lastContext)), parts, falsy)
    else ReplaceAll(Push(m, Depthed(parts[0])), parts[1..], falsy)
  }

  /** One opcode; `isSimple` if the program is a single statement. */
  function Exec(o: Settings, isSimple: bool, op: Op, m: Machine): Try<Machine> {
    match op
    case GetContext(depth) => Ok(m.(lastContext := depth))
    case PushContext => Ok(PushLit(m, Context(m.lastContext)))
    case LookupOnContext(parts, falsy, scoped) => LookupOn(m, o, parts, falsy, scoped)
    case LookupData(up, parts) => ReplaceAll(PushLit(m, Data(up)), parts, true)
    case ResolvePossibleLambda =>
      var popped :- Pop(m);
      Ok(Push(popped.1, Lambda(popped.0)))
    case PushProgram(index) => Ok(PushLit(m, if index.Some? then ProgramOf(index.value) else Null))
    case EmptyHash => Ok(PushLit(m, Object([])))
    case PushHash => Ok(m.(hashes := m.hashes + (if m.hash.Some? then [m.hash.value] else []), hash := Some([])))
    case AssignToHash(key) =>
      var popped :- Pop(m);
      if m.hash.None? then Throws
      else Ok(popped.1.(hash := Some(m.hash.value + [Field(key, popped.0)])))
    case PopHash =>
      if m.hash.None? then Throws
      else
        var outer := if m.hashes == [] then m.(hash := None)
                     else m.(hash := Some(Last(m.hashes)), hashes := Front(m.hashes));
        Ok(Push(outer, Object(m.hash.value)))
    case PushString(text) => Ok(PushLit(m, Text(text)))
    case PushLiteral(text) => Ok(PushLit(m, Literal(text)))
    case PushUndefined => Ok(Push(m, Undefined))
    case InvokeHelper(n, name, isSimpleName) =>
      var found :- Pop(m);
      var set_ :- SetupOptions(found.1, n, name);
      Ok(Push(set_.2, Invoke(if isSimpleName then Some(name) else None, found.0, set_.0 + [set_.1])))
    case InvokeKnownHelper(n, name) =>
      var set_ :- SetupOptions(m, n, name);
      Ok(Push(set_.2, InvokeKnown(name, set_.0 + [set_.1])))
    case InvokeAmbiguous(name, helperCall) =>
      var found :- Pop(m);
      var set_ :- SetupOptions(PushLit(found.1, Object([])), 0, name);
      Ok(Push(set_.2.(lastHelper := name), InvokeFound(name, found.0, set_.1, helperCall)))
    case BlockValue(name) =>
      var set_ :- SetupOptions(m, 0, name);
      var value :- Pop(set_.2);
      Ok(Push(value.1, BlockMissing(value.0, set_.1)))
    case AmbiguousBlockValue =>
      var set_ :- SetupOptions(m, 0, "");
      var flushed := FlushInline(set_.2);
      var current :- Top(flushed);
      Ok(PushSource(flushed, IfNoHelper(m.lastHelper, current, current, OptionsVar)))
    case InvokePartial(name, indent) =>
      var context :- Pop(m);
      var hash :- Pop(context.1);
      Ok(Push(hash.1, InvokePartialOf(name, indent, context.0, hash.0)))
    case Append => AppendTop(m, isSimple)
    case AppendEscaped =>
      var popped :- Pop(m);
      Ok(PushSource(popped.1, EmitEscaped(popped.0)))
    case AppendContent(text) => Ok(m.(pendingContent := m.pendingContent + text))
  }

  function ExecAll(o: Settings, isSimple: bool, ops: seq<Op>, m: Machine): Try<Machine> {
    if ops == [] then Ok(m)
    else
      var before :- ExecAll(o, isSimple, Front(ops), m);
      Exec(o, isSimple, Last(ops), before)
  }

  /** The source of a program: all opcodes, then what is pending; nothing may be left on the stacks. */
  function Generate(o: Settings, c: Compiled): Try<seq<Stmt>> {
    var m :- ExecAll(o, c.isSimple, c.opcodes, INITIAL);
    if m.stackSlot != 0 || m.inlineStack != [] || m.compileStack != [] then Throws
    else Ok(Flushed(m).source)
  }

  // ---------- A program with its children ----------

  /** A written function, with those of the programs of its blocks. */
  datatype JsFunction = JsFunction(source: seq<Stmt>, isSimple: bool, children: seq<JsFunction>)

  function Assemble(o: Settings, c: Compiled): Try<JsFunction>
    decreases c
  {
    var source :- Generate(o, c);
    var children :- AssembleAll(o, c.children);
    Ok(JsFunction(source, c.isSimple, children))
  }

  function AssembleAll(o: Settings, cs: seq<Compiled>): Try<seq<JsFunction>>
    decreases cs
  {
    if cs == [] then Ok([])
    else
      var front :- AssembleAll(o, Front(cs));
      var last :- Assemble(o, Last(cs));
      Ok(front + [last])
  }
}
