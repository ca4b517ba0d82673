/**
 The first half of the template compiler: from a syntax tree to opcodes
 (handlebars-2.0.0.js:27-28, `Compiler`), without `trackIds` and `stringParams`.
 */
module HandlebarsCompiler {
  import opened Wrappers

  // ---------- The syntax tree ----------

  /** A path; `scoped` if it mentions `this` or `.`, `depth` counts its `..`. */
  datatype Path = Path(original: string, parts: seq<string>, depth: nat, scoped: bool)

  datatype Expr =
    | Id(path: Path)
    | DataId(up: nat, names: seq<string>)         // @name
    | StringLit(text: string)
    | PlainLit(text: string)                      // a number or a boolean
    | Sub(sexpr: Sexpr)                           // (...)

  datatype Pair = Pair(key: string, value: Expr)

  datatype Hash = NoHash | HashOf(pairs: seq<Pair>)

  datatype Sexpr =
    | Call(id: Path, params: seq<Expr>, hash: Hash)
    | DataRef(up: nat, names: seq<string>)

  /** What can head a block: the grammar closes blocks with a path. */
  type Head = s: Sexpr | s.Call? witness Call(Path("", [], 0, false), [], NoHash)

  datatype Statement =
    | Content(text: string)
    | Comment
    | Mustache(sexpr: Sexpr, escaped: bool)
    | Block(head: Head, program: Option<Program>, inverse: Option<Program>)
    | PartialCall(name: string, context: Option<Expr>, hash: Hash, indent: string)

  datatype Program = Program(statements: seq<Statement>)

  datatype Settings = Settings(knownHelpers: string -> bool, knownHelpersOnly: bool, compat: bool, noEscape: bool)

  // ---------- Opcodes ----------

  datatype Op =
    | GetContext(depth: nat) | PushContext
    | LookupOnContext(parts: seq<string>, falsy: bool, scoped: bool)
    | LookupData(up: nat, parts: seq<string>)
    | ResolvePossibleLambda
    | PushProgram(index: Option<nat>)
    | EmptyHash | PushHash | AssignToHash(key: string) | PopHash
    | PushString(text: string) | PushLiteral(text: string) | PushUndefined
    | InvokeHelper(paramSize: nat, name: string, isSimple: bool)
    | InvokeKnownHelper(paramSize: nat, name: string)
    | InvokeAmbiguous(name: string, helperCall: bool)
    | BlockValue(name: string) | AmbiguousBlockValue
    | InvokePartial(name: string, indent: string)
    | Append | AppendEscaped | AppendContent(text: string)

  datatype Compiled = Compiled(opcodes: seq<Op>, children: seq<Compiled>, isSimple: bool)

  datatype Kind = HelperKind | AmbiguousKind | SimpleKind

  /** One name, not scoped, not from an outer context: it may be a helper's. */
  predicate IsSimpleId(p: Path) { |p.parts| == 1 && !p.scoped && p.depth == 0 }

  /** Arguments, or parentheses, make an s-expression a helper call. */
  predicate IsHelper(s: Sexpr, sub: bool) { sub || (s.Call? && (s.params != [] || s.hash.HashOf?)) }

  predicate KnownName(o: Settings, p: Path) { p.parts != [] && o.knownHelpers(p.parts[0]) }

  /** How an s-expression is called; `sub` if it stands in parentheses. */
  function Classify(o: Settings, s: Sexpr, sub: bool): Kind {
    if IsHelper(s, sub) then HelperKind
    else if s.DataRef? || !IsSimpleId(s.id) then SimpleKind
    else if KnownName(o, s.id) then HelperKind
    else if o.knownHelpersOnly then SimpleKind
    else AmbiguousKind
  }

  // ---------- What each node is compiled to ----------

  /** The first part of a path counts only if it is not empty. */
  predicate Named(p: Path) { p.parts != [] && p.parts[0] != "" }

  function IdOps(p: Path, falsy: bool): seq<Op> {
    [GetContext(p.depth)] + if Named(p) then [LookupOnContext(p.parts, falsy, p.scoped)] else [PushContext]
  }

  function ExprOps(o: Settings, e: Expr): seq<Op>
    decreases e
  {
    match e
    case Id(p) => IdOps(p, false)
    case DataId(up, names) => [LookupData(up, names)]
    case StringLit(text) => [PushString(text)]
    case PlainLit(text) => [PushLiteral(text)]
    case Sub(s) => SexprOps(o, s, true, None, None)
  }

  function ParamOps(o: Settings, params: seq<Expr>): seq<Op>
    decreases params
  {
    if params == [] then []
    else ParamOps(o, params[..|params| - 1]) + ExprOps(o, params[|params| - 1])
  }

  function ValueOps(o: Settings, pairs: seq<Pair>): seq<Op>
    decreases pairs
  {
    if pairs == [] then []
    else ValueOps(o, pairs[..|pairs| - 1]) + ExprOps(o, pairs[|pairs| - 1].value)
  }

  /** The values are taken off in reverse. */
  function AssignOps(pairs: seq<Pair>): seq<Op> {
    if pairs == [] then []
    else [AssignToHash(pairs[|pairs| - 1].key)] + AssignOps(pairs[..|pairs| - 1])
  }

  function HashOps(o: Settings, hash: Hash): seq<Op>
    decreases hash
  {
    if hash.NoHash? then [EmptyHash]
    else [PushHash] + ValueOps(o, hash.pairs) + AssignOps(hash.pairs) + [PopHash]
  }

  /** An s-expression with the indices of the programs of its block, if it heads one. */
  function SexprOps(o: Settings, s: Sexpr, sub: bool, program: Option<nat>, inverse: Option<nat>): seq<Op>
    decreases s
  {
    match Classify(o, s, sub)
    case SimpleKind => SimpleOps(s)
    case AmbiguousKind =>
      [GetContext(s.id.depth), PushProgram(program), PushProgram(inverse)] + IdOps(s.id, false)
      + [InvokeAmbiguous(s.id.parts[0], program.Some? || inverse.Some?)]
    case HelperKind =>
      if s.DataRef? then []
      else
        ParamOps(o, s.params) + [PushProgram(program), PushProgram(inverse)] + HashOps(o, s.hash)
        + if KnownName(o, s.id) then [InvokeKnownHelper(|s.params|, s.id.parts[0])]
          else IdOps(s.id, true) + [InvokeHelper(|s.params|, s.id.original, IsSimpleId(s.id))]
  }

  function SimpleOps(s: Sexpr): seq<Op> {
    (if s.DataRef? then [LookupData(s.up, s.names)] else IdOps(s.id, false)) + [ResolvePossibleLambda]
  }

  /** `knownHelpersOnly` rejects calls of helpers that are not known; and `(@name)` cannot be called. */
  predicate ExprCompiles(o: Settings, e: Expr)
    decreases e
  {
    e.Sub? ==> SexprCompiles(o, e.sexpr, true)
  }

  predicate SexprCompiles(o: Settings, s: Sexpr, sub: bool)
    decreases s
  {
    Classify(o, s, sub) == HelperKind ==>
      && s.Call?
      && (o.knownHelpersOnly ==> KnownName(o, s.id))
      && (forall i :: 0 <= i < |s.params| ==> ExprCompiles(o, s.params[i]))
      && HashCompiles(o, s.hash)
  }

  predicate HashCompiles(o: Settings, hash: Hash)
    decreases hash
  {
    hash.HashOf? ==> forall i :: 0 <= i < |hash.pairs| ==> ExprCompiles(o, hash.pairs[i].value)
  }

  predicate StatementCompiles(o: Settings, s: Statement)
    decreases s
  {
    match s
    case Content(_) => true
    case Comment => true
    case Mustache(sexpr, _) => SexprCompiles(o, sexpr, false)
    case Block(head, p, i) =>
      SexprCompiles(o, head, false) && (p.Some? ==> Compiles(o, p.value)) && (i.Some? ==> Compiles(o, i.value))
    case PartialCall(_, context, hash, _) =>
      (context.Some? ==> ExprCompiles(o, context.value)) && HashCompiles(o, hash)
  }

  predicate Compiles(o: Settings, p: Program)
    decreases p
  {
    forall i :: 0 <= i < |p.statements| ==> StatementCompiles(o, p.statements[i])
  }

  /** The programs of a block, in the order in which they get their indices. */
  function Children(o: Settings, s: Statement): seq<Compiled>
    decreases s, 0
  {
    if !s.Block? then []
    else (if s.program.Some? then [CompiledProgram(o, s.program.value)] else [])
         + (if s.inverse.Some? then [CompiledProgram(o, s.inverse.value)] else [])
  }

  function AllChildren(o: Settings, statements: seq<Statement>): seq<Compiled>
    decreases statements, 1
  {
    if statements == [] then []
    else AllChildren(o, statements[..|statements| - 1]) + Children(o, statements[|statements| - 1])
  }

  function ProgramIndex(s: Statement, base: nat): Option<nat>
    requires s.Block?
  {
    if s.program.Some? then Some(base) else None
  }

  function InverseIndex(s: Statement, base: nat): Option<nat>
    requires s.Block?
  {
    if s.inverse.Some? then Some(base + if s.program.Some? then 1 else 0) else None
  }

  function BlockOps(o: Settings, head: Head, program: Option<nat>, inverse: Option<nat>): seq<Op> {
    var programs := [PushProgram(program), PushProgram(inverse), EmptyHash];
    match Classify(o, head, false)
    case HelperKind => SexprOps(o, head, false, program, inverse)
    case SimpleKind => SimpleOps(head) + programs + [BlockValue(head.id.original)]
    case AmbiguousKind => SexprOps(o, head, false, program, inverse) + programs + [AmbiguousBlockValue]
  }

  /** A statement of a program that has `base` children so far. */
  function StatementOps(o: Settings, s: Statement, base: nat): seq<Op> {
    match s
    case Content(text) => if text != "" then [AppendContent(text)] else []
    case Comment => []
    case Mustache(sexpr, escaped) =>
      SexprOps(o, sexpr, false, None, None) + [if escaped && !o.noEscape then AppendEscaped else Append]
    case Block(head, _, _) => BlockOps(o, head, ProgramIndex(s, base), InverseIndex(s, base)) + [Append]
    case PartialCall(name, context, hash, indent) =>
      (if hash.HashOf? then HashOps(o, hash) else [PushUndefined])
      + (if context.Some? then ExprOps(o, context.value) else [GetContext(0), PushContext])
      + [InvokePartial(name, indent), Append]
  }

  function ProgramOps(o: Settings, statements: seq<Statement>): seq<Op>
    decreases statements, 2
  {
    if statements == [] then []
    else
      var before := statements[..|statements| - 1];
      ProgramOps(o, before) + StatementOps(o, statements[|statements| - 1], |AllChildren(o, before)|)
  }

  function CompiledProgram(o: Settings, p: Program): Compiled
    decreases p
  {
    Compiled(ProgramOps(o, p.statements), AllChildren(o, p.statements), |p.statements| == 1)
  }

  /** The compiler: it walks the tree and adds to its list of opcodes. */
  class Compiler {
    const options: Settings
    var opcodes: seq<Op>
    var children: seq<Compiled>
    var guid: nat

    constructor (options: Settings)
      ensures this.options == options && opcodes == [] && children == [] && guid == 0
    {
      this.options := options;
      opcodes, children, guid := [], [], 0;
    }

    method Opcode(op: Op)
      modifies this`opcodes
      ensures opcodes == old(opcodes) + [op]
    {
      opcodes := opcodes + [op];
    }

    method Compile(p: Program) returns (r: Try<Compiled>)
      requires opcodes == [] && children == [] && guid == 0
      modifies this
      ensures r.Ok? <==> Compiles(options, p)
      ensures r.Ok? ==> r.value == CompiledProgram(options, p)
      decreases p, 1
    {
      hide StatementCompiles;
      hide StatementOps;
      hide Children;
      for i := 0 to |p.statements|
        invariant opcodes == ProgramOps(options, p.statements[..i])
        invariant children == AllChildren(options, p.statements[..i]) && guid == |children|
        invariant forall j :: 0 <= j < i ==> StatementCompiles(options, p.statements[j])
      {
        assert p.statements[..i + 1][..i] == p.statements[..i];
        var _ :- Accept(p.statements[i]);
      }
      assert p.statements[..|p.statements|] == p.statements;
      return Ok(Compiled(opcodes, children, |p.statements| == 1));
    }

    /** Compiles a block's program, if there is one, with a compiler of its own. */
    method CompileProgram(p: Option<Program>) returns (r: Try<Option<nat>>)
      requires guid == |children|
      modifies this`children, this`guid
      ensures guid == |children|
      ensures r.Ok? <==> (p.Some? ==> Compiles(options, p.value))
      ensures r.Ok? ==>
                && r.value == (if p.Some? then Some(old(guid)) else None)
                && children == old(children) + if p.Some? then [CompiledProgram(options, p.value)] else []
      decreases p
    {
      if p.None? {
        return Ok(None);
      }
      var compiler := new Compiler(options);
      var child :- compiler.Compile(p.value);
      children := children + [child];
      guid := guid + 1;
      return Ok(Some(guid - 1));
    }

    method Accept(s: Statement) returns (r: Try<()>)
      requires guid == |children|
      modifies this
      ensures guid == |children|
      ensures r.Ok? <==> StatementCompiles(options, s)
      ensures r.Ok? ==>
                && opcodes == old(opcodes) + StatementOps(options, s, |old(children)|)
                && children == old(children) + Children(options, s)
      decreases s
    {
      match s
      case Content(text) =>
        if text != "" {
          Opcode(AppendContent(text));
        }
        return Ok(());
      case Comment =>
        return Ok(());
      case Mustache(sexpr, escaped) =>
        var _ :- EmitSexpr(sexpr, false, None, None);
        Opcode(if escaped && !options.noEscape then AppendEscaped else Append);
        return Ok(());
      case Block(_, _, _) =>
        r := EmitBlock(s);
      case PartialCall(_, _, _, _) =>
        r := EmitPartial(s);
    }

    method EmitPartial(s: Statement) returns (r: Try<()>)
      requires s.PartialCall?
      modifies this`opcodes
      ensures r.Ok? <==> StatementCompiles(options, s)
      ensures r.Ok? ==> opcodes == old(opcodes) + StatementOps(options, s, 0)
      decreases s, 0
    {
      hide ExprOps;
      hide HashOps;
      ghost var was := opcodes;
      if s.hash.HashOf? {
        var _ :- EmitHash(s.hash);
      } else {
        Opcode(PushUndefined);
      }
      ghost var first := if s.hash.HashOf? then HashOps(options, s.hash) else [PushUndefined];
      assert opcodes == was + first;
      if s.context.Some? {
        var _ :- PushParam(s.context.value);
      } else {
        Opcode(GetContext(0));
        Opcode(PushContext);
      }
      ghost var second := if s.context.Some? then ExprOps(options, s.context.value) else [GetContext(0), PushContext];
      assert opcodes == was + (first + second);
      Opcode(InvokePartial(s.name, s.indent));
      Opcode(Append);
      return Ok(());
    }

    method EmitBlock(s: Statement) returns (r: Try<()>)
      requires guid == |children| && s.Block?
      modifies this
      ensures guid == |children|
      ensures r.Ok? <==> StatementCompiles(options, s)
      ensures r.Ok? ==>
                && opcodes == old(opcodes) + StatementOps(options, s, |old(children)|)
                && children == old(children) + Children(options, s)
      decreases s, 0
    {
      hide SexprOps;
      hide BlockOps;
      hide CompiledProgram;
      hide ExprCompiles;
      hide SexprCompiles;
      hide Compiles;
      var program :- CompileProgram(s.program);
      var inverse :- CompileProgram(s.inverse);
      var _ :- EmitHead(s.head, program, inverse);
      Opcode(Append);
      return Ok(());
    }

    method EmitHead(head: Head, program: Option<nat>, inverse: Option<nat>) returns (r: Try<()>)
      modifies this`opcodes
      ensures r.Ok? <==> SexprCompiles(options, head, false)
      ensures r.Ok? ==> opcodes == old(opcodes) + BlockOps(options, head, program, inverse)
      decreases head, 1
    {
      hide SexprOps;
      hide SimpleOps;
      hide ExprCompiles;
      hide HashCompiles;
      match Classify(options, head, false) {
        case HelperKind =>
          var _ :- HelperSexpr(head, false, program, inverse);
        case SimpleKind =>
          SimpleSexpr(head);
          Opcode(PushProgram(program));
          Opcode(PushProgram(inverse));
          Opcode(EmptyHash);
          Opcode(BlockValue(head.id.original));
        case AmbiguousKind =>
          AmbiguousSexpr(head, program, inverse);
          Opcode(PushProgram(program));
          Opcode(PushProgram(inverse));
          Opcode(EmptyHash);
          Opcode(AmbiguousBlockValue);
      }
      return Ok(());
    }

    method EmitHash(hash: Hash) returns (r: Try<()>)
      requires hash.HashOf?
      modifies this`opcodes
      ensures r.Ok? <==> HashCompiles(options, hash)
      ensures r.Ok? ==> opcodes == old(opcodes) + HashOps(options, hash)
      decreases hash, 0
    {
      hide ExprOps;
      hide ExprCompiles;
      var pairs := hash.pairs;
      Opcode(PushHash);
      for i := 0 to |pairs|
        invariant opcodes == old(opcodes) + [PushHash] + ValueOps(options, pairs[..i])
        invariant forall j :: 0 <= j < i ==> ExprCompiles(options, pairs[j].value)
      {
        assert pairs[..i + 1][..i] == pairs[..i];
        var _ :- PushParam(pairs[i].value);
      }
      assert pairs[..|pairs|] == pairs;
      ghost var pushed := opcodes;
      var b := |pairs|;
      while b > 0
        invariant 0 <= b <= |pairs|
        invariant opcodes + AssignOps(pairs[..b]) == pushed + AssignOps(pairs)
      {
        b := b - 1;
        assert pairs[..b + 1][..b] == pairs[..b];
        Opcode(AssignToHash(pairs[b].key));
      }
      assert opcodes == pushed + AssignOps(pairs);
      Opcode(PopHash);
      return Ok(());
    }

    method EmitNoHash()
      modifies this`opcodes
      ensures opcodes == old(opcodes) + HashOps(options, NoHash)
    {
      Opcode(EmptyHash);
    }

    method EmitSexpr(s: Sexpr, sub: bool, program: Option<nat>, inverse: Option<nat>) returns (r: Try<()>)
      modifies this`opcodes
      ensures r.Ok? <==> SexprCompiles(options, s, sub)
      ensures r.Ok? ==> opcodes == old(opcodes) + SexprOps(options, s, sub, program, inverse)
      decreases s, 1
    {
      match Classify(options, s, sub) {
        case SimpleKind => SimpleSexpr(s);
        case HelperKind => var _ :- HelperSexpr(s, sub, program, inverse);
        case AmbiguousKind => AmbiguousSexpr(s, program, inverse);
      }
      return Ok(());
    }

    method AmbiguousSexpr(s: Sexpr, program: Option<nat>, inverse: Option<nat>)
      requires Classify(options, s, false) == AmbiguousKind
      modifies this`opcodes
      ensures opcodes == old(opcodes) + SexprOps(options, s, false, program, inverse)
    {
      var id := s.id;
      var name := id.parts[0];
      var isBlock := program.Some? || inverse.Some?;
      Opcode(GetContext(id.depth));
      Opcode(PushProgram(program));
      Opcode(PushProgram(inverse));
      EmitId(id, false);
      Opcode(InvokeAmbiguous(name, isBlock));
    }

    method SimpleSexpr(s: Sexpr)
      modifies this`opcodes
      ensures opcodes == old(opcodes) + SimpleOps(s)
    {
      if s.DataRef? {
        Opcode(LookupData(s.up, s.names));
      } else if s.id.parts != [] {
        EmitId(s.id, false);
      } else {
        Opcode(GetContext(s.id.depth));
        Opcode(PushContext);
      }
      Opcode(ResolvePossibleLambda);
    }

    /** The name of a helper is the first part of its path, so what is no path cannot be called. */
    method HelperSexpr(s: Sexpr, sub: bool, program: Option<nat>, inverse: Option<nat>) returns (r: Try<()>)
      requires Classify(options, s, sub) == HelperKind
      modifies this`opcodes
      ensures r.Ok? <==> SexprCompiles(options, s, sub)
      ensures r.Ok? ==> opcodes == old(opcodes) + SexprOps(options, s, sub, program, inverse)
      decreases s, 0
    {
      hide ExprOps;
      hide ExprCompiles;
      hide ParamOps;
      hide HashOps;
      ghost var was := opcodes;
      if s.DataRef? {
        Opcode(PushProgram(program));
        Opcode(PushProgram(inverse));
        EmitNoHash();
        return Throws;
      }
      var _ :- PushParams(s.params);
      Opcode(PushProgram(program));
      Opcode(PushProgram(inverse));
      ghost var first := ParamOps(options, s.params) + [PushProgram(program), PushProgram(inverse)];
      assert opcodes == was + first;
      if s.hash.HashOf? {
        var _ :- EmitHash(s.hash);
      } else {
        EmitNoHash();
      }
      assert opcodes == was + (first + HashOps(options, s.hash));
      if KnownName(options, s.id) {
        Opcode(InvokeKnownHelper(|s.params|, s.id.parts[0]));
      } else if options.knownHelpersOnly {
        return Throws;
      } else {
        EmitId(s.id, true);
        Opcode(InvokeHelper(|s.params|, s.id.original, IsSimpleId(s.id)));
      }
      return Ok(());
    }

    method EmitId(p: Path, falsy: bool)
      modifies this`opcodes
      ensures opcodes == old(opcodes) + IdOps(p, falsy)
    {
      Opcode(GetContext(p.depth));
      if Named(p) {
        Opcode(LookupOnContext(p.parts, falsy, p.scoped));
      } else {
        Opcode(PushContext);
      }
    }

    method PushParams(params: seq<Expr>) returns (r: Try<()>)
      modifies this`opcodes
      ensures r.Ok? <==> forall i :: 0 <= i < |params| ==> ExprCompiles(options, params[i])
      ensures r.Ok? ==> opcodes == old(opcodes) + ParamOps(options, params)
      decreases params
    {
      hide ExprOps;
      hide ExprCompiles;
      for i := 0 to |params|
        invariant opcodes == old(opcodes) + ParamOps(options, params[..i])
        invariant forall j :: 0 <= j < i ==> ExprCompiles(options, params[j])
      {
        assert params[..i + 1][..i] == params[..i];
        var _ :- PushParam(params[i]);
      }
      assert params[..|params|] == params;
      return Ok(());
    }

    method PushParam(e: Expr) returns (r: Try<()>)
      modifies this`opcodes
      ensures r.Ok? <==> ExprCompiles(options, e)
      ensures r.Ok? ==> opcodes == old(opcodes) + ExprOps(options, e)
      decreases e
    {
      match e {
        case Id(p) => EmitId(p, false);
        case DataId(up, names) => Opcode(LookupData(up, names));
        case StringLit(text) => Opcode(PushString(text));
        case PlainLit(text) => Opcode(PushLiteral(text));
        case Sub(s) => var _ :- EmitSexpr(s, true, None, None);
      }
      return Ok(());
    }
  }
}
