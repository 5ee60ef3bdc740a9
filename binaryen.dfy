/**
  The part of a binaryen module handle that the ABI transform uses: a table of
  functions whose bodies are small i32 expression trees, a table of exports and
  the module's globals.  Expressions get a meaning through `Eval`, so that a
  generated helper can be stated as a transition on the globals.
 */
module Binaryen {
  import opened Wrappers
  import opened Words

  /** The only value type the generated helpers use. */
  datatype ValType = I32

  datatype BinaryOp = SubOp | AndOp

  /** Expression trees: the instructions built with the module's expression builders. */
  datatype Expr =
    | Const(bits: u32)
    | Nop
    | GlobalGet(global: string)
    | GlobalSet(global: string, operand: Expr)
    | LocalGet(index: nat)
    | LocalTee(index: nat, operand: Expr)
    | Binary(op: BinaryOp, left: Expr, right: Expr)
    | Block(children: seq<Expr>)

  /**
    32-bit wrapping semantics of the binary instructions: i32.sub is exact when
    it does not underflow and otherwise wraps past 2^32; i32.and is below both operands.
   */
  function Apply(op: BinaryOp, x: u32, y: u32): (r: u32)
    ensures op == SubOp && y <= x ==> r == x - y
    ensures op == SubOp && x < y ==> r == Modulus + x - y
    ensures op == AndOp ==> r <= x && r <= y
  {
    match op
    case SubOp => Sub(x, y)
    case AndOp => And(x, y)
  }

  /** The values an executing function sees: the module's globals and its own locals. */
  datatype Frame = Frame(globals: map<string, u32>, locals: seq<u32>)

  /**
    Evaluating an expression either produces a new frame and possibly a value,
    or is `Invalid`: the expression refers to a global or local that does not
    exist, or an operand yields no value.  Such a function fails validation.
   */
  datatype Outcome = Invalid | Done(frame: Frame, value: Option<u32>)

  /**
    Evaluation can change the values of globals and locals but never which
    globals exist or how many locals there are.
   */
  function Eval(e: Expr, f: Frame): (r: Outcome)
    ensures r.Done? ==> r.frame.globals.Keys == f.globals.Keys && |r.frame.locals| == |f.locals|
    decreases e, 1
  {
    match e
    case Const(bits) => Done(f, Some(bits))
    case Nop => Done(f, None)
    case GlobalGet(g) =>
      if g in f.globals then Done(f, Some(f.globals[g])) else Invalid
    case GlobalSet(g, x) =>
      (match Eval(x, f)
       case Done(f1, Some(v)) =>
         if g in f1.globals then Done(f1.(globals := f1.globals[g := v]), None) else Invalid
       case _ => Invalid)
    case LocalGet(i) =>
      if i < |f.locals| then Done(f, Some(f.locals[i])) else Invalid
    case LocalTee(i, x) =>
      (match Eval(x, f)
       case Done(f1, Some(v)) =>
         if i < |f1.locals| then Done(f1.(locals := f1.locals[i := v]), Some(v)) else Invalid
       case _ => Invalid)
    case Binary(op, l, r) =>
      (match Eval(l, f)
       case Done(f1, Some(x)) =>
         (match Eval(r, f1)
          case Done(f2, Some(y)) => Done(f2, Some(Apply(op, x, y)))
          case _ => Invalid)
       case _ => Invalid)
    case Block(children) => EvalBlock(children, f)
  }

  /** A block runs its children in order; its value is that of the last child. */
  function EvalBlock(es: seq<Expr>, f: Frame): (r: Outcome)
    ensures r.Done? ==> r.frame.globals.Keys == f.globals.Keys && |r.frame.locals| == |f.locals|
    ensures |es| == 0 ==> r == Done(f, None)
    decreases es, 0
  {
    if |es| == 0 then Done(f, None)
    else if |es| == 1 then Eval(es[0], f)
    else
      match Eval(es[0], f)
      case Done(f1, _) => EvalBlock(es[1..], f1)
      case Invalid => Invalid
  }

  /** A function as `addFunction(name, params, results, varTypes, body)` creates it. */
  datatype FuncDef = FuncDef(params: seq<ValType>, results: seq<ValType>, vars: seq<ValType>, body: Expr)

  /** What calling a function does to the globals, and what it returns. */
  datatype Call = Rejected | Returned(globals: map<string, u32>, value: Option<u32>)

  /**
    Calls `fd` with `args`: parameters come first among the locals, then the
    declared variables, zero-initialised as in WebAssembly.
   */
  function Invoke(fd: FuncDef, args: seq<u32>, globals: map<string, u32>): (c: Call)
    ensures c.Returned? ==> |args| == |fd.params|
    ensures c.Returned? ==> (c.value.Some? <==> |fd.results| > 0)
  {
    if |args| != |fd.params| then Rejected
    else
      match Eval(fd.body, Frame(globals, args + seq(|fd.vars|, _ => 0 as u32)))
      case Invalid => Rejected
      case Done(f, v) =>
        if v.Some? == (|fd.results| > 0) then Returned(f.globals, v) else Rejected
  }

  datatype ExternalKind = FunctionKind | TableKind | MemoryKind

  /** An export: the kind of the exported entity and its internal name. */
  datatype Export = Export(kind: ExternalKind, internal: string)

  /** A snapshot of a module: functions, exports (by external name) and globals. */
  datatype ModuleState = ModuleState(
    functions: map<string, FuncDef>,
    exports: map<string, Export>,
    globals: map<string, u32>)

  /** `addFunction`: binaryen refuses (aborts on) a name that is already a function. */
  function AddFunctionStep(m: ModuleState, name: string, fd: FuncDef): (r: Option<ModuleState>)
    ensures r.Some? <==> name !in m.functions
    ensures r.Some? ==> r.value == m.(functions := m.functions[name := fd])
  {
    if name in m.functions then None else Some(m.(functions := m.functions[name := fd]))
  }

  /** `addFunctionExport`, `addTableExport`, `addMemoryExport`: refused on a name already exported. */
  function AddExportStep(m: ModuleState, external: string, e: Export): (r: Option<ModuleState>)
    ensures r.Some? <==> external !in m.exports
    ensures r.Some? ==> r.value == m.(exports := m.exports[external := e])
  {
    if external in m.exports then None else Some(m.(exports := m.exports[external := e]))
  }

  /** `removeExport`: removing a name that is not exported changes nothing. */
  function RemoveExportStep(m: ModuleState, external: string): (r: ModuleState)
    ensures r.exports.Keys == m.exports.Keys - {external}
    ensures forall n :: n in r.exports ==> r.exports[n] == m.exports[n]
    ensures r.functions == m.functions && r.globals == m.globals
  {
    m.(exports := m.exports - {external})
  }

  /** The module handle, mutated in place by the transform. */
  class Module {
    var functions: map<string, FuncDef>
    var exports: map<string, Export>
    var globals: map<string, u32>

    function State(): ModuleState
      reads this
    {
      ModuleState(functions, exports, globals)
    }

    constructor (s: ModuleState)
      ensures State() == s
    {
      functions, exports, globals := s.functions, s.exports, s.globals;
    }

    method AddFunction(name: string, params: seq<ValType>, results: seq<ValType>,
                       vars: seq<ValType>, body: Expr) returns (ok: bool)
      modifies this
      ensures ok == (name !in old(functions))
      ensures ok ==> Some(State()) == AddFunctionStep(old(State()), name, FuncDef(params, results, vars, body))
      ensures !ok ==> State() == old(State())
    {
      ok := name !in functions;
      if ok {
        functions := functions[name := FuncDef(params, results, vars, body)];
      }
    }

    method AddExport(external: string, e: Export) returns (ok: bool)
      modifies this
      ensures ok == (external !in old(exports))
      ensures ok ==> Some(State()) == AddExportStep(old(State()), external, e)
      ensures !ok ==> State() == old(State())
    {
      ok := external !in exports;
      if ok {
        exports := exports[external := e];
      }
    }

    method AddFunctionExport(internal: string, external: string) returns (ok: bool)
      modifies this
      ensures ok == (external !in old(exports))
      ensures ok ==> Some(State()) == AddExportStep(old(State()), external, Export(FunctionKind, internal))
      ensures !ok ==> State() == old(State())
    {
      ok := AddExport(external, Export(FunctionKind, internal));
    }

    method AddTableExport(internal: string, external: string) returns (ok: bool)
      modifies this
      ensures ok == (external !in old(exports))
      ensures ok ==> Some(State()) == AddExportStep(old(State()), external, Export(TableKind, internal))
      ensures !ok ==> State() == old(State())
    {
      ok := AddExport(external, Export(TableKind, internal));
    }

    method AddMemoryExport(internal: string, external: string) returns (ok: bool)
      modifies this
      ensures ok == (external !in old(exports))
      ensures ok ==> Some(State()) == AddExportStep(old(State()), external, Export(MemoryKind, internal))
      ensures !ok ==> State() == old(State())
    {
      ok := AddExport(external, Export(MemoryKind, internal));
    }

    method RemoveExport(external: string)
      modifies this
      ensures State() == RemoveExportStep(old(State()), external)
    {
      exports := exports - {external};
    }
  }
}
