/**
 The machine as the class it is in the source: an object that pushes and pops its two
 stacks and grows its source (handlebars-2.0.0.js:28, `JavaScriptCompiler`). Every method
 is proved against the function on machine states of the same purpose.
 */
module HandlebarsJs {
  import opened Wrappers
  import opened HandlebarsCompiler
  import opened HandlebarsMachine
  import opened HandlebarsMeaning
  import opened HandlebarsDiscipline
  import opened HandlebarsCorrect
  import opened HandlebarsCalls

  class JavaScriptCompiler {
    const options: Settings
    const isSimple: bool
    var inlineStack: seq<Entry>
    var compileStack: seq<Entry>
    var stackSlot: nat
    var hash: Option<seq<Field>>
    var hashes: seq<seq<Field>>
    var lastContext: nat
    var lastHelper: string
    var pendingContent: string
    var source: seq<Stmt>

    constructor (options: Settings, isSimple: bool)
      ensures this.options == options && this.isSimple == isSimple && State() == INITIAL
    {
      this.options, this.isSimple := options, isSimple;
      inlineStack, compileStack, stackSlot := [], [], 0;
      hash, hashes := None, [];
      lastContext, lastHelper, pendingContent, source := 0, "", "", [];
    }

    ghost function State(): Machine
      reads this
    {
      Machine(inlineStack, compileStack, stackSlot, hash, hashes, lastContext, lastHelper, pendingContent, source)
    }

    predicate IsInline()
      reads this
    {
      inlineStack != []
    }

    method PushCode(e: Js)
      modifies this`inlineStack
      ensures State() == Push(old(State()), e)
    {
      inlineStack := inlineStack + [Computed(e)];
    }

    method PushStackLiteral(e: Js)
      modifies this`inlineStack
      ensures State() == PushLit(old(State()), e)
    {
      inlineStack := inlineStack + [Plain(e)];
    }

    method PopStack() returns (r: Try<Js>)
      modifies this`inlineStack, this`compileStack, this`stackSlot
      ensures r.Ok? <==> Pop(old(State())).Ok?
      ensures r.Ok? ==> (r.value, State()) == Pop(old(State())).value
    {
      if IsInline() {
        var top := inlineStack[|inlineStack| - 1];
        inlineStack := inlineStack[..|inlineStack| - 1];
        return Ok(top.value);
      }
      if compileStack == [] {
        return Throws;
      }
      var top := compileStack[|compileStack| - 1];
      compileStack := compileStack[..|compileStack| - 1];
      if top.Computed? {
        if stackSlot == 0 {
          return Throws;
        }
        stackSlot := stackSlot - 1;
      }
      return Ok(top.value);
    }

    method TopStack() returns (r: Try<Js>)
      ensures r == Top(State())
    {
      var stack := if IsInline() then inlineStack else compileStack;
      return if stack == [] then Throws else Ok(stack[|stack| - 1].value);
    }

    method IncrStack() returns (name: Js)
      modifies this`stackSlot
      ensures stackSlot == old(stackSlot) + 1 && name == Slot(stackSlot)
    {
      stackSlot := stackSlot + 1;
      name := Slot(stackSlot);
    }

    method WritePending()
      modifies this`source, this`pendingContent
      ensures State() == Flushed(old(State()))
    {
      if pendingContent != "" {
        source := source + [EmitText(pendingContent)];
        pendingContent := "";
      }
    }

    method Write(s: Stmt)
      modifies this`source, this`pendingContent
      ensures State() == PushSource(old(State()), s)
    {
      WritePending();
      source := source + [s];
    }

    method PushStack(e: Js)
      modifies this
      ensures State() == ToSlot(HandlebarsMachine.FlushInline(old(State())), Computed(e))
      decreases |inlineStack|, 1
    {
      FlushInline();
      var name := IncrStack();
      Write(SetSlot(stackSlot, e));
      compileStack := compileStack + [Computed(name)];
    }

    /** Empties the inline stack onto the compile stack. */
    method FlushInline()
      modifies this
      ensures State() == HandlebarsMachine.FlushInline(old(State()))
      decreases |inlineStack|, 0
    {
      var entries := inlineStack;
      ghost var flushed := HandlebarsMachine.FlushInline(State());
      if entries != [] {
        inlineStack := [];
        for b := 0 to |entries|
          invariant inlineStack == [] && AllToSlots(State(), entries[b..]) == flushed
        {
          assert entries[b..][0] == entries[b] && entries[b..][1..] == entries[b + 1..];
          if entries[b].Plain? {
            compileStack := compileStack + [entries[b]];
          } else {
            StillFlushed(State());
            PushStack(entries[b].value);
            ToSlotKeepsInline(old(State()), entries[b]);
          }
        }
      } else {
        StillFlushed(State());
      }
    }

    lemma ToSlotKeepsInline(m: Machine, e: Entry)
      ensures ToSlot(m, e).inlineStack == m.inlineStack
    {
    }

    lemma StillFlushed(m: Machine)
      requires m.inlineStack == []
      ensures HandlebarsMachine.FlushInline(m) == m
    {
      assert m.(inlineStack := []) == m;
    }

    /** Guards the top and looks `name` up in it. */
    method ReplaceStack(name: string, falsy: bool) returns (r: Try<()>)
      modifies this`inlineStack, this`stackSlot
      ensures r.Ok? <==> HandlebarsMachine.ReplaceStack(old(State()), name, falsy).Ok?
      ensures r.Ok? ==> Ok(State()) == HandlebarsMachine.ReplaceStack(old(State()), name, falsy)
    {
      if !IsInline() {
        return Throws;
      }
      var top := inlineStack[|inlineStack| - 1];
      inlineStack := inlineStack[..|inlineStack| - 1];
      ghost var rest := inlineStack;
      if top.Plain? {
        PushCode(Guard(top.value, top.value, name, falsy));
        return Ok(());
      }
      var createdStack := stackSlot == 0;
      if createdStack {
        var _ := IncrStack();
      }
      var n := stackSlot;
      PushCode(Slot(n));
      var prefix := Assign(n, top.value);
      var stack := inlineStack[|inlineStack| - 1].value;
      var code := Guard(prefix, stack, name, falsy);
      inlineStack := inlineStack[..|inlineStack| - 1];
      assert inlineStack == rest;
      if createdStack {
        stackSlot := stackSlot - 1;
      }
      PushCode(code);
      return Ok(());
    }

    method ReplaceEach(names: seq<string>, falsy: bool) returns (r: Try<()>)
      modifies this`inlineStack, this`stackSlot
      ensures r.Ok? <==> ReplaceAll(old(State()), names, falsy).Ok?
      ensures r.Ok? ==> Ok(State()) == ReplaceAll(old(State()), names, falsy)
    {
      hide HandlebarsMachine.ReplaceStack;
      for i := 0 to |names|
        invariant ReplaceAll(State(), names[i..], falsy) == ReplaceAll(old(State()), names, falsy)
      {
        assert names[i..][0] == names[i] && names[i..][1..] == names[i + 1..];
        var _ :- ReplaceStack(names[i], falsy);
      }
      return Ok(());
    }

    method LookupOnContext(parts: seq<string>, falsy: bool, scoped: bool) returns (r: Try<()>)
      modifies this`inlineStack, this`stackSlot
      ensures r.Ok? <==> LookupOn(old(State()), options, parts, falsy, scoped).Ok?
      ensures r.Ok? ==> Ok(State()) == LookupOn(old(State()), options, parts, falsy, scoped)
    {
      var i := 0;
      if scoped || !options.compat || lastContext != 0 || parts == [] {
        PushStackLiteral(Context(lastContext));
      } else {
        PushCode(Depthed(parts[0]));
        i := 1;
      }
      assert parts[0..] == parts;
      r := ReplaceEach(parts[i..], falsy);
    }

    /** The hash, the two programs and the parameters of a call come off the stack, the last one first. */
    method TakeOptions(paramSize: nat, name: string) returns (r: Try<(seq<Js>, Js)>)
      modifies this`inlineStack, this`compileStack, this`stackSlot
      ensures r.Ok? <==> SetupOptions(old(State()), paramSize, name).Ok?
      ensures r.Ok? ==> Ok((r.value.0, r.value.1, State())) == SetupOptions(old(State()), paramSize, name)
    {
      hide Pop;
      var hash :- PopStack();
      var inverse :- PopStack();
      var fn :- PopStack();
      ghost var before := State();
      var blocks := fn != Null || inverse != Null;
      var shown := Options(name, hash, if blocks && fn == Null then Noop else fn,
                           if blocks && inverse == Null then Noop else inverse);
      var params: seq<Js> := [];
      ghost var all := PopParams(before, paramSize);
      assert all.Ok? ==> all.value.0 + params == all.value.0;
      for k := paramSize downto 0
        invariant var p := PopParams(State(), k);
                  PopParams(before, paramSize) == if p.Ok? then Ok((p.value.0 + params, p.value.1)) else Throws
      {
        var param :- PopStack();
        ghost var p := PopParams(State(), k);
        if p.Ok? {
          assert p.value.0 + [param] + params == p.value.0 + ([param] + params);
        }
        params := [param] + params;
      }
      assert [] + params == params;
      return Ok((params, shown));
    }

    method InvokeAHelper(op: Op) returns (r: Try<()>)
      requires op.InvokeHelper? || op.InvokeKnownHelper? || op.InvokeAmbiguous?
      modifies this
      ensures r.Ok? <==> Exec(options, isSimple, op, old(State())).Ok?
      ensures r.Ok? ==> Ok(State()) == Exec(options, isSimple, op, old(State()))
    {
      hide Pop;
      hide SetupOptions;
      match op {
        case InvokeHelper(n, name, isSimpleName) =>
          var helper :- PopStack();
          var set_ :- TakeOptions(n, name);
          PushCode(Invoke(if isSimpleName then Some(name) else None, helper, set_.0 + [set_.1]));
        case InvokeKnownHelper(n, name) =>
          var set_ :- TakeOptions(n, name);
          PushCode(InvokeKnown(name, set_.0 + [set_.1]));
        case InvokeAmbiguous(name, helperCall) =>
          var nonHelper :- PopStack();
          PushStackLiteral(Object([]));
          var set_ :- TakeOptions(0, name);
          lastHelper := name;
          PushCode(InvokeFound(name, nonHelper, set_.1, helperCall));
      }
      return Ok(());
    }

    method ShowBlock(op: Op) returns (r: Try<()>)
      requires op.BlockValue? || op.AmbiguousBlockValue? || op.InvokePartial? || op.Append? || op.AppendEscaped?
      modifies this
      ensures r.Ok? <==> Exec(options, isSimple, op, old(State())).Ok?
      ensures r.Ok? ==> Ok(State()) == Exec(options, isSimple, op, old(State()))
    {
      hide Pop;
      hide SetupOptions;
      hide Top;
      hide HandlebarsMachine.FlushInline;
      hide PushSource;
      match op {
        case BlockValue(name) =>
          var set_ :- TakeOptions(0, name);
          var current :- PopStack();
          PushCode(BlockMissing(current, set_.1));
        case AmbiguousBlockValue =>
          var helper := lastHelper;
          var _ :- TakeOptions(0, "");
          FlushInline();
          var current :- TopStack();
          Write(IfNoHelper(helper, current, current, OptionsVar));
        case InvokePartial(name, indent) =>
          var context :- PopStack();
          var hash :- PopStack();
          PushCode(InvokePartialOf(name, indent, context, hash));
        case Append =>
          FlushInline();
          var local :- PopStack();
          Write(EmitUnlessNull(local));
          if isSimple {
            Write(ElseEmpty);
          }
        case AppendEscaped =>
          var local :- PopStack();
          Write(EmitEscaped(local));
      }
      return Ok(());
    }

    method HashStep(op: Op) returns (r: Try<()>)
      requires op.PushHash? || op.AssignToHash? || op.PopHash?
      modifies this
      ensures r.Ok? <==> Exec(options, isSimple, op, old(State())).Ok?
      ensures r.Ok? ==> Ok(State()) == Exec(options, isSimple, op, old(State()))
    {
      match op {
        case PushHash =>
          if hash.Some? {
            hashes := hashes + [hash.value];
          }
          assert old(hashes) + [] == old(hashes);
          hash := Some([]);
        case AssignToHash(key) =>
          var value :- PopStack();
          if hash.None? {
            return Throws;
          }
          hash := Some(hash.value + [Field(key, value)]);
        case PopHash =>
          if hash.None? {
            return Throws;
          }
          var fields := hash.value;
          if hashes == [] {
            hash := None;
          } else {
            hash, hashes := Some(hashes[|hashes| - 1]), hashes[..|hashes| - 1];
          }
          PushCode(Object(fields));
      }
      return Ok(());
    }

    /** Runs one opcode. */
    method Step(op: Op) returns (r: Try<()>)
      modifies this
      ensures r.Ok? <==> Exec(options, isSimple, op, old(State())).Ok?
      ensures r.Ok? ==> Ok(State()) == Exec(options, isSimple, op, old(State()))
    {
      hide Pop;
      hide SetupOptions;
      hide AppendTop;
      hide LookupOn;
      hide ReplaceAll;
      match op
      case GetContext(depth) => lastContext := depth; return Ok(());
      case PushContext => PushStackLiteral(Context(lastContext)); return Ok(());
      case LookupOnContext(parts, falsy, scoped) => r := LookupOnContext(parts, falsy, scoped);
      case LookupData(up, parts) =>
        PushStackLiteral(Data(up));
        r := ReplaceEach(parts, true);
      case ResolvePossibleLambda =>
        var value :- PopStack();
        PushCode(Lambda(value));
        return Ok(());
      case PushProgram(index) =>
        PushStackLiteral(if index.Some? then ProgramOf(index.value) else Null);
        return Ok(());
      case EmptyHash => PushStackLiteral(Object([])); return Ok(());
      case PushHash => r := HashStep(op);
      case AssignToHash(_) => r := HashStep(op);
      case PopHash => r := HashStep(op);
      case PushString(text) => PushStackLiteral(Text(text)); return Ok(());
      case PushLiteral(text) => PushStackLiteral(Literal(text)); return Ok(());
      case PushUndefined => PushCode(Undefined); return Ok(());
      case InvokeHelper(_, _, _) => r := InvokeAHelper(op);
      case InvokeKnownHelper(_, _) => r := InvokeAHelper(op);
      case InvokeAmbiguous(_, _) => r := InvokeAHelper(op);
      case AppendContent(text) => pendingContent := pendingContent + text; return Ok(());
      case _ => r := ShowBlock(op);
    }

    /** Runs all opcodes of a program and returns the source, or throws if the stacks are not empty then. */
    method Compile(opcodes: seq<Op>) returns (r: Try<seq<Stmt>>)
      requires State() == INITIAL
      modifies this
      ensures forall children :: r == Generate(options, Compiled(opcodes, children, isSimple))
    {
      hide Exec;
      for f := 0 to |opcodes|
        invariant ExecAll(options, isSimple, opcodes[..f], INITIAL) == Ok(State())
      {
        assert Front(opcodes[..f + 1]) == opcodes[..f];
        var step := Step(opcodes[f]);
        if step.Throws? {
          ThrowsOn(options, isSimple, opcodes, f + 1, INITIAL);
          return Throws;
        }
      }
      assert opcodes[..|opcodes|] == opcodes;
      WritePending();
      if stackSlot != 0 || inlineStack != [] || compileStack != [] {
        return Throws;
      }
      return Ok(source);
    }

    /** Compiles the programs of the blocks, each with a compiler of its own, and then the program itself. */
    method CompileFunction(c: Compiled) returns (r: Try<JsFunction>)
      requires State() == INITIAL && isSimple == c.isSimple
      modifies this
      ensures r == Assemble(options, c)
      decreases c
    {
      hide Generate;
      var children :- CompileChildren(c.children);
      var text :- Compile(c.opcodes);
      assert Generate(options, Compiled(c.opcodes, c.children, isSimple)) == Ok(text);
      return Ok(JsFunction(text, isSimple, children));
    }

    method CompileChildren(cs: seq<Compiled>) returns (r: Try<seq<JsFunction>>)
      ensures r == AssembleAll(options, cs)
      decreases cs
    {
      hide Assemble;
      var functions: seq<JsFunction> := [];
      for f := 0 to |cs|
        invariant AssembleAll(options, cs[..f]) == Ok(functions)
      {
        assert Front(cs[..f + 1]) == cs[..f];
        var compiler := new JavaScriptCompiler(options, cs[f].isSimple);
        var function_ := compiler.CompileFunction(cs[f]);
        if function_.Throws? {
          ChildThrows(options, cs, f + 1);
          return Throws;
        }
        functions := functions + [function_.value];
      }
      assert cs[..|cs|] == cs;
      return Ok(functions);
    }
  }

  lemma {:induction false} ChildThrows(o: Settings, cs: seq<Compiled>, n: nat)
    requires n <= |cs| && AssembleAll(o, cs[..n]).Throws?
    ensures AssembleAll(o, cs).Throws?
    decreases |cs|
  {
    if n == |cs| {
      assert cs[..n] == cs;
    } else {
      assert Front(cs)[..n] == cs[..n];
      ChildThrows(o, Front(cs), n);
    }
  }

  /**
   Both halves, as objects: a template that compiles gets JavaScript that outputs, in
   every host and world, what the template means.
   */
  method CompileTemplate(options: Settings, p: Program) returns (r: Try<JsFunction>)
    requires AllParsed(p)
    ensures r.Ok? <==> Compiles(options, p)
    ensures r.Ok? ==>
              forall h: Host, w: World :: Extensional(h) ==>
                Ran(h, r.value, w) == MeanProgram(h, options, p.statements, w)
    ensures r.Ok? ==> forall h: Host, w: World :: Ran(h, r.value, w) == Played(h, options, p, w)
  {
    var compiler := new Compiler(options);
    var compiled :- compiler.Compile(p);
    var js := new JavaScriptCompiler(options, compiled.isSimple);
    r := js.CompileFunction(compiled);
    EveryTemplateAssembles(options, p);
    forall h: Host, w: World | Extensional(h)
      ensures Ran(h, r.value, w) == MeanProgram(h, options, p.statements, w)
    {
      TemplateMeans(h, options, p);
      assert h.(frame := h.frame) == h;
    }
  }
}
