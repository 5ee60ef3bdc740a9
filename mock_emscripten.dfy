/**
  The ABI transform run after AssemblyScript compilation: it adds seven helper
  functions to the module, re-exports the program's entry point as `handle`,
  and binds the Emscripten-style names (`stackAlloc`, `stackSave`, `memory`,
  ...) to those helpers, to table `0` and to memory `0`.
 */
module MockEmscripten {
  import opened Wrappers
  import opened Words
  import opened Binaryen

  const StackPointer := "~lib/memory/__stack_pointer"
  const HeapBase := "~lib/memory/__heap_base"

  /** The internal name of the program's entry point, exported as `handle`. */
  const HandleEntry := "export:src/process/handle"

  // The seven helpers, as passed to addFunction(name, params, results, vars, body).

  const Fflush := FuncDef([I32], [I32], [], Const(0))
  const GetHeapBase := FuncDef([], [I32], [], GlobalGet(HeapBase))
  const GetStackPointer := FuncDef([], [I32], [], GlobalGet(StackPointer))
  const MainStub := FuncDef([I32, I32], [I32], [], Const(0))
  const Noop := FuncDef([], [], [], Nop)
  const Push := FuncDef([I32], [I32], [I32, I32],
    Block([
      GlobalSet(StackPointer,
        LocalTee(1,
          Binary(AndOp,
            Binary(SubOp, GlobalGet(StackPointer), LocalGet(0)),
            Const(Wrap(-16))))),
      LocalGet(1)]))
  const SetStackPointer := FuncDef([I32], [], [], GlobalSet(StackPointer, LocalGet(0)))

  /** The functions the transform adds, by name. */
  const Helpers: map<string, FuncDef> := map[
    "__fflush" := Fflush,
    "__get_heap_base" := GetHeapBase,
    "__get_stack_pointer" := GetStackPointer,
    "__main" := MainStub,
    "__noop" := Noop,
    "__push" := Push,
    "__set_stack_pointer" := SetStackPointer]

  /** The exports the transform binds, by external name. */
  const AbiExports: map<string, Export> := map[
    "memory" := Export(MemoryKind, "0"),
    "__wasm_call_ctors" := Export(FunctionKind, "__noop"),
    "handle" := Export(FunctionKind, HandleEntry),
    "main" := Export(FunctionKind, "__main"),
    "__indirect_function_table" := Export(TableKind, "0"),
    "fflush" := Export(FunctionKind, "__fflush"),
    "emscripten_stack_init" := Export(FunctionKind, "__noop"),
    "emscripten_stack_get_end" := Export(FunctionKind, "__get_heap_base"),
    "stackSave" := Export(FunctionKind, "__get_stack_pointer"),
    "stackRestore" := Export(FunctionKind, "__set_stack_pointer"),
    "stackAlloc" := Export(FunctionKind, "__push")]

  const HelperNames: set<string> := {
    "__fflush", "__get_heap_base", "__get_stack_pointer", "__main", "__noop", "__push", "__set_stack_pointer"}

  /** The fixed export names other than `handle`, which the transform removes before binding it. */
  const FixedExportNames: set<string> := {
    "memory", "__wasm_call_ctors", "main", "__indirect_function_table", "fflush",
    "emscripten_stack_init", "emscripten_stack_get_end", "stackSave", "stackRestore", "stackAlloc"}

  /**
    The transform runs to the end exactly when no helper name is already a
    function and no fixed export name other than `handle` is already
    exported: binaryen aborts on either duplicate.
   */
  predicate CanTransform(m: ModuleState) {
    && HelperNames !! m.functions.Keys
    && FixedExportNames !! m.exports.Keys
  }

  /** The "Add Functions" section: seven addFunction calls, in source order. */
  function WithHelpers(m: ModuleState): (r: Option<ModuleState>)
    ensures r.Some? <==> HelperNames !! m.functions.Keys
    ensures r.Some? ==> r.value == m.(functions := m.functions + Helpers)
  {
    var m :- AddFunctionStep(m, "__fflush", Fflush);
    var m :- AddFunctionStep(m, "__get_heap_base", GetHeapBase);
    var m :- AddFunctionStep(m, "__get_stack_pointer", GetStackPointer);
    var m :- AddFunctionStep(m, "__main", MainStub);
    var m :- AddFunctionStep(m, "__noop", Noop);
    var m :- AddFunctionStep(m, "__push", Push);
    var m :- AddFunctionStep(m, "__set_stack_pointer", SetStackPointer);
    Some(m)
  }

  /** The fixed exports, in the three groups the proof handles separately. */
  const EarlyExportNames: set<string> := {"memory", "__wasm_call_ctors"}
  const RuntimeExportNames: set<string> := {
    "main", "__indirect_function_table", "fflush", "emscripten_stack_init"}
  const StackExportNames: set<string> := {
    "emscripten_stack_get_end", "stackSave", "stackRestore", "stackAlloc"}

  const EarlyExports: map<string, Export> := map[
    "memory" := Export(MemoryKind, "0"),
    "__wasm_call_ctors" := Export(FunctionKind, "__noop")]
  const RuntimeExports: map<string, Export> := map[
    "main" := Export(FunctionKind, "__main"),
    "__indirect_function_table" := Export(TableKind, "0"),
    "fflush" := Export(FunctionKind, "__fflush"),
    "emscripten_stack_init" := Export(FunctionKind, "__noop")]
  const StackExports: map<string, Export> := map[
    "emscripten_stack_get_end" := Export(FunctionKind, "__get_heap_base"),
    "stackSave" := Export(FunctionKind, "__get_stack_pointer"),
    "stackRestore" := Export(FunctionKind, "__set_stack_pointer"),
    "stackAlloc" := Export(FunctionKind, "__push")]

  /** The memory and `__wasm_call_ctors` exports. */
  function WithEarlyExports(m: ModuleState): (r: Option<ModuleState>)
    ensures r.Some? <==> EarlyExportNames !! m.exports.Keys
    ensures r.Some? ==> r.value == m.(exports := m.exports + EarlyExports)
  {
    var m :- AddExportStep(m, "memory", Export(MemoryKind, "0"));
    AddExportStep(m, "__wasm_call_ctors", Export(FunctionKind, "__noop"))
  }

  /** removeExport('handle') followed by the new `handle` binding: this pair never fails. */
  function WithHandle(m: ModuleState): (r: ModuleState)
    ensures r == m.(exports := m.exports["handle" := Export(FunctionKind, HandleEntry)])
  {
    var m := RemoveExportStep(m, "handle");
    AddExportStep(m, "handle", Export(FunctionKind, HandleEntry)).value
  }

  /** `main`, the table, `fflush` and `emscripten_stack_init`, in source order. */
  function WithRuntimeExports(m: ModuleState): (r: Option<ModuleState>)
    ensures r.Some? <==> RuntimeExportNames !! m.exports.Keys
    ensures r.Some? ==> r.value == m.(exports := m.exports + RuntimeExports)
  {
    var m :- AddExportStep(m, "main", Export(FunctionKind, "__main"));
    var m :- AddExportStep(m, "__indirect_function_table", Export(TableKind, "0"));
    var m :- AddExportStep(m, "fflush", Export(FunctionKind, "__fflush"));
    AddExportStep(m, "emscripten_stack_init", Export(FunctionKind, "__noop"))
  }

  /** The four stack-related exports, in source order. */
  function WithStackExports(m: ModuleState): (r: Option<ModuleState>)
    ensures r.Some? <==> StackExportNames !! m.exports.Keys
    ensures r.Some? ==> r.value == m.(exports := m.exports + StackExports)
  {
    var m :- AddExportStep(m, "emscripten_stack_get_end", Export(FunctionKind, "__get_heap_base"));
    var m :- AddExportStep(m, "stackSave", Export(FunctionKind, "__get_stack_pointer"));
    var m :- AddExportStep(m, "stackRestore", Export(FunctionKind, "__set_stack_pointer"));
    AddExportStep(m, "stackAlloc", Export(FunctionKind, "__push"))
  }

  lemma ExportGroups()
    ensures FixedExportNames == EarlyExportNames + RuntimeExportNames + StackExportNames
    ensures EarlyExportNames !! RuntimeExportNames && EarlyExportNames !! StackExportNames
    ensures RuntimeExportNames !! StackExportNames && "handle" !in FixedExportNames
    ensures EarlyExports.Keys == EarlyExportNames && RuntimeExports.Keys == RuntimeExportNames
    ensures StackExports.Keys == StackExportNames
    ensures AbiExports == EarlyExports["handle" := Export(FunctionKind, HandleEntry)] + RuntimeExports + StackExports
  {
  }

  /** The three export groups, applied in order, add up to the whole export rewrite. */
  lemma ComposeExportGroups(e: map<string, Export>)
    ensures var e1 := (e + EarlyExports)["handle" := Export(FunctionKind, HandleEntry)];
      && (FixedExportNames !! e.Keys <==>
           EarlyExportNames !! e.Keys && RuntimeExportNames !! e1.Keys
           && StackExportNames !! (e1 + RuntimeExports).Keys)
      && (e1 + RuntimeExports) + StackExports == (e - {"handle"}) + AbiExports
  {
    ExportGroups();
    var e1 := (e + EarlyExports)["handle" := Export(FunctionKind, HandleEntry)];
    var l := (e1 + RuntimeExports) + StackExports;
    var r := (e - {"handle"}) + AbiExports;
    assert l.Keys == r.Keys;
    forall k | k in l ensures l[k] == r[k] {
    }
  }

  /** The "Define Exports" section. */
  function WithExports(m: ModuleState): (r: Option<ModuleState>)
    ensures r.Some? <==> FixedExportNames !! m.exports.Keys
    ensures r.Some? ==> r.value == m.(exports := (m.exports - {"handle"}) + AbiExports)
  {
    ComposeExportGroups(m.exports);
    var m1 :- WithEarlyExports(m);
    var m2 :- WithRuntimeExports(WithHandle(m1));
    WithStackExports(m2)
  }

  /** The whole of afterCompile, stopping at the first step binaryen refuses. */
  function Transform(m: ModuleState): (r: Option<ModuleState>)
    ensures r.Some? <==> CanTransform(m)
    ensures r.Some? ==> r.value == ModuleState(m.functions + Helpers, (m.exports - {"handle"}) + AbiExports, m.globals)
  {
    var m :- WithHelpers(m);
    WithExports(m)
  }

  /**
    afterCompile: mutates the module handle step by step.  `ok` is false when
    binaryen refused a step (in the source the compilation then aborts).
   */
  method AfterCompile(mod: Module) returns (ok: bool)
    modifies mod
    ensures ok == CanTransform(old(mod.State()))
    ensures ok ==> Some(mod.State()) == Transform(old(mod.State()))
  {
    ok := AddFunctions(mod);
    if !ok { return; }
    ok := DefineExports(mod);
  }

  method AddFunctions(mod: Module) returns (ok: bool)
    modifies mod
    ensures ok == (HelperNames !! old(mod.functions).Keys)
    ensures ok ==> Some(mod.State()) == WithHelpers(old(mod.State()))
  {
    ok := mod.AddFunction("__fflush", Fflush.params, Fflush.results, Fflush.vars, Fflush.body);
    if !ok { return; }
    ok := mod.AddFunction("__get_heap_base", GetHeapBase.params, GetHeapBase.results, GetHeapBase.vars, GetHeapBase.body);
    if !ok { return; }
    ok := mod.AddFunction("__get_stack_pointer", GetStackPointer.params, GetStackPointer.results,
                          GetStackPointer.vars, GetStackPointer.body);
    if !ok { return; }
    ok := mod.AddFunction("__main", MainStub.params, MainStub.results, MainStub.vars, MainStub.body);
    if !ok { return; }
    ok := mod.AddFunction("__noop", Noop.params, Noop.results, Noop.vars, Noop.body);
    if !ok { return; }
    ok := mod.AddFunction("__push", Push.params, Push.results, Push.vars, Push.body);
    if !ok { return; }
    ok := mod.AddFunction("__set_stack_pointer", SetStackPointer.params, SetStackPointer.results,
                          SetStackPointer.vars, SetStackPointer.body);
  }

  method DefineExports(mod: Module) returns (ok: bool)
    modifies mod
    ensures ok == WithExports(old(mod.State())).Some?
    ensures ok ==> Some(mod.State()) == WithExports(old(mod.State()))
  {
    ghost var s0 := mod.State();
    ok := mod.AddMemoryExport("0", "memory");
    if !ok { return; }
    ok := mod.AddFunctionExport("__noop", "__wasm_call_ctors");
    if !ok { return; }
    assert Some(mod.State()) == WithEarlyExports(s0);
    mod.RemoveExport("handle");
    ok := mod.AddFunctionExport(HandleEntry, "handle");
    assert ok;
    ghost var s1 := mod.State();
    assert s1 == WithHandle(WithEarlyExports(s0).value);
    ok := mod.AddFunctionExport("__main", "main");
    if !ok { return; }
    ok := mod.AddTableExport("0", "__indirect_function_table");
    if !ok { return; }
    ok := mod.AddFunctionExport("__fflush", "fflush");
    if !ok { return; }
    ok := mod.AddFunctionExport("__noop", "emscripten_stack_init");
    if !ok { return; }
    ghost var s2 := mod.State();
    assert Some(s2) == WithRuntimeExports(s1);
    ok := mod.AddFunctionExport("__get_heap_base", "emscripten_stack_get_end");
    if !ok { return; }
    ok := mod.AddFunctionExport("__get_stack_pointer", "stackSave");
    if !ok { return; }
    ok := mod.AddFunctionExport("__set_stack_pointer", "stackRestore");
    if !ok { return; }
    ok := mod.AddFunctionExport("__push", "stackAlloc");
    assert ok ==> Some(mod.State()) == WithStackExports(s2);
  }

  // ---------------------------------------------------------------------------
  // What the helpers do when called

  /** The largest multiple of 16 not above `x`: `x` with its low four bits cleared. */
  function AlignDown16(x: u32): (r: u32)
    ensures r % 16 == 0
    ensures r <= x && x - r < 16
  {
    assert Pow2(4) == 16;
    AndClearsLowBits(x, 4);
    And(x, Wrap(-16))
  }

  /**
    `__push` (exported as stackAlloc) stores `(sp - size) & -16` into the stack
    pointer and returns the stored value, read back from local 1 after the
    `local.tee`.  Subtraction wraps at 2^32.
   */
  lemma PushIsStackAlloc(g: map<string, u32>, size: u32)
    requires StackPointer in g
    ensures var top := AlignDown16(Sub(g[StackPointer], size));
      Invoke(Push, [size], g) == Returned(g[StackPointer := top], Some(top))
  {
    var sp := g[StackPointer];
    var top := AlignDown16(Sub(sp, size));
    var f0 := Frame(g, [size, 0, 0]);
    assert [size] + seq(|Push.vars|, _ => 0 as u32) == [size, 0, 0];
    assert Wrap(-16) == 0xFFFF_FFF0;
    var diff := Binary(SubOp, GlobalGet(StackPointer), LocalGet(0));
    assert Eval(diff, f0) == Done(f0, Some(Sub(sp, size)));
    var masked := Binary(AndOp, diff, Const(Wrap(-16)));
    assert Eval(masked, f0) == Done(f0, Some(top));
    var f1 := Frame(g, [size, top, 0]);
    assert Eval(LocalTee(1, masked), f0) == Done(f1, Some(top));
    var f2 := Frame(g[StackPointer := top], [size, top, 0]);
    var store := GlobalSet(StackPointer, LocalTee(1, masked));
    assert Eval(store, f0) == Done(f2, None);
    assert Eval(LocalGet(1), f2) == Done(f2, Some(top));
    assert [store, LocalGet(1)][1..] == [LocalGet(1)];
    assert EvalBlock([store, LocalGet(1)], f0) == Done(f2, Some(top));
  }

  /** The stackAlloc result is 16-aligned and, when `size <= sp`, not above the old stack pointer. */
  lemma StackAllocBound(sp: u32, size: u32)
    ensures AlignDown16(Sub(sp, size)) % 16 == 0
    ensures AlignDown16(Sub(sp, size)) <= Sub(sp, size)
    ensures size <= sp ==> AlignDown16(Sub(sp, size)) <= sp
  {
  }

  /** `__get_stack_pointer` (stackSave) returns the stack pointer and changes nothing. */
  lemma StackSaveReads(g: map<string, u32>)
    requires StackPointer in g
    ensures Invoke(GetStackPointer, [], g) == Returned(g, Some(g[StackPointer]))
  {
  }

  /** `__set_stack_pointer` (stackRestore) stores its argument and has no other effect. */
  lemma StackRestoreWrites(g: map<string, u32>, p: u32)
    requires StackPointer in g
    ensures Invoke(SetStackPointer, [p], g) == Returned(g[StackPointer := p], None)
  {
    var f0 := Frame(g, [p]);
    assert [p] + seq(|SetStackPointer.vars|, _ => 0 as u32) == [p];
    assert Eval(LocalGet(0), f0) == Done(f0, Some(p));
  }

  /** stackSave after stackRestore(p) returns `p`. */
  lemma SaveAfterRestore(g: map<string, u32>, p: u32)
    requires StackPointer in g
    ensures Invoke(SetStackPointer, [p], g).Returned?
    ensures Invoke(GetStackPointer, [], Invoke(SetStackPointer, [p], g).globals).value == Some(p)
  {
    StackRestoreWrites(g, p);
    StackSaveReads(g[StackPointer := p]);
  }

  /**
    `__fflush` and `__main` return 0 for every argument, `__noop` (bound to
    `__wasm_call_ctors` and `emscripten_stack_init`) returns nothing; none of
    them touches a global.
   */
  lemma ConstantHelpers(g: map<string, u32>, x: u32, y: u32)
    ensures Invoke(Fflush, [x], g) == Returned(g, Some(0))
    ensures Invoke(MainStub, [x, y], g) == Returned(g, Some(0))
    ensures Invoke(Noop, [], g) == Returned(g, None)
  {
    assert [x] + seq(|Fflush.vars|, _ => 0 as u32) == [x];
    assert [x, y] + seq(|MainStub.vars|, _ => 0 as u32) == [x, y];
  }

  /** `__get_heap_base` (emscripten_stack_get_end) returns the heap base verbatim. */
  lemma StackEndIsHeapBase(g: map<string, u32>)
    requires HeapBase in g
    ensures Invoke(GetHeapBase, [], g) == Returned(g, Some(g[HeapBase]))
  {
  }

  // ---------------------------------------------------------------------------
  // The exports after the transform

  /** The function an export name reaches, if it is a function export of a defined function. */
  function ExportedFunction(m: ModuleState, name: string): (r: Option<FuncDef>)
    ensures r.Some? <==> name in m.exports && m.exports[name].kind == FunctionKind
                         && m.exports[name].internal in m.functions
    ensures r.Some? ==> r.value == m.functions[m.exports[name].internal]
  {
    if name in m.exports && m.exports[name].kind == FunctionKind && m.exports[name].internal in m.functions
    then Some(m.functions[m.exports[name].internal])
    else None
  }

  /** Where each fixed export name points. */
  lemma AbiExportsLookup()
    ensures HelperNames == Helpers.Keys && FixedExportNames + {"handle"} == AbiExports.Keys
    ensures AbiExports["handle"] == Export(FunctionKind, HandleEntry)
    ensures AbiExports["memory"] == Export(MemoryKind, "0")
    ensures AbiExports["__indirect_function_table"] == Export(TableKind, "0")
    ensures AbiExports["stackAlloc"] == Export(FunctionKind, "__push")
    ensures AbiExports["stackSave"] == Export(FunctionKind, "__get_stack_pointer")
    ensures AbiExports["stackRestore"] == Export(FunctionKind, "__set_stack_pointer")
    ensures AbiExports["emscripten_stack_get_end"] == Export(FunctionKind, "__get_heap_base")
    ensures AbiExports["fflush"] == Export(FunctionKind, "__fflush")
    ensures AbiExports["main"] == Export(FunctionKind, "__main")
    ensures AbiExports["__wasm_call_ctors"] == Export(FunctionKind, "__noop")
    ensures AbiExports["emscripten_stack_init"] == Export(FunctionKind, "__noop")
  {
    ExportGroups();
  }

  /** The helper each internal name denotes. */
  lemma HelpersLookup()
    ensures Helpers["__push"] == Push && Helpers["__get_stack_pointer"] == GetStackPointer
    ensures Helpers["__set_stack_pointer"] == SetStackPointer && Helpers["__get_heap_base"] == GetHeapBase
    ensures Helpers["__fflush"] == Fflush && Helpers["__main"] == MainStub && Helpers["__noop"] == Noop
    ensures HandleEntry !in Helpers
  {
  }

  /** A function export of a helper reaches that helper once the helpers are added. */
  lemma ReachesHelper(p: ModuleState, name: string, internal: string)
    requires name in p.exports && p.exports[name] == Export(FunctionKind, internal)
    requires internal in Helpers && forall h :: h in Helpers ==> h in p.functions && p.functions[h] == Helpers[h]
    ensures ExportedFunction(p, name) == Some(Helpers[internal])
  {
  }

  /**
    After the transform `handle` is bound to the program's entry point whether
    or not it was exported before, memory and table `0` are exported, and
    exports the transform does not name are unchanged.
   */
  lemma TransformExports(m: ModuleState)
    requires CanTransform(m)
    ensures var p := Transform(m).value;
      && p.exports["handle"] == Export(FunctionKind, HandleEntry)
      && p.exports["memory"] == Export(MemoryKind, "0")
      && p.exports["__indirect_function_table"] == Export(TableKind, "0")
      && (forall n :: n in AbiExports ==> n in p.exports && p.exports[n] == AbiExports[n])
      && (forall n :: n !in AbiExports ==> (n in p.exports <==> n in m.exports))
      && (forall n :: n in m.exports && n !in AbiExports ==> p.exports[n] == m.exports[n])
      && p.globals == m.globals
  {
    AbiExportsLookup();
    var p := Transform(m).value;
    assert p.exports == (m.exports - {"handle"}) + AbiExports;
  }

  /**
    The exported runtime names reach the helpers; `handle` reaches whatever
    the module defines as its entry point.
   */
  lemma ExportedHelpers(m: ModuleState)
    requires CanTransform(m)
    ensures var p := Transform(m).value;
      && ExportedFunction(p, "stackAlloc") == Some(Push)
      && ExportedFunction(p, "stackSave") == Some(GetStackPointer)
      && ExportedFunction(p, "stackRestore") == Some(SetStackPointer)
      && ExportedFunction(p, "emscripten_stack_get_end") == Some(GetHeapBase)
      && ExportedFunction(p, "fflush") == Some(Fflush)
      && ExportedFunction(p, "main") == Some(MainStub)
      && ExportedFunction(p, "__wasm_call_ctors") == Some(Noop)
      && ExportedFunction(p, "emscripten_stack_init") == Some(Noop)
      && ExportedFunction(p, "handle") == (if HandleEntry in m.functions then Some(m.functions[HandleEntry]) else None)
  {
    AbiExportsLookup();
    HelpersLookup();
    var p := Transform(m).value;
    assert p.functions == m.functions + Helpers;
    assert p.exports == (m.exports - {"handle"}) + AbiExports;
    ReachesHelper(p, "stackAlloc", "__push");
    ReachesHelper(p, "stackSave", "__get_stack_pointer");
    ReachesHelper(p, "stackRestore", "__set_stack_pointer");
    ReachesHelper(p, "emscripten_stack_get_end", "__get_heap_base");
    ReachesHelper(p, "fflush", "__fflush");
    ReachesHelper(p, "main", "__main");
    ReachesHelper(p, "__wasm_call_ctors", "__noop");
    ReachesHelper(p, "emscripten_stack_init", "__noop");
  }

  /** `__push` always returns a 16-aligned pointer and leaves the stack pointer at it. */
  lemma PushAligned(g: map<string, u32>, size: u32)
    requires StackPointer in g
    ensures var c := Invoke(Push, [size], g);
      c.Returned? && c.value.Some? && c.value.value % 16 == 0
      && StackPointer in c.globals && c.globals[StackPointer] == c.value.value
  {
    PushIsStackAlloc(g, size);
  }

  /** The exported stackAlloc of a transformed module always returns a 16-aligned pointer. */
  lemma ExportedStackAllocAligned(m: ModuleState, g: map<string, u32>, size: u32)
    requires CanTransform(m) && StackPointer in g
    ensures var fd := ExportedFunction(Transform(m).value, "stackAlloc");
      && fd.Some?
      && Invoke(fd.value, [size], g).Returned?
      && Invoke(fd.value, [size], g).value.Some?
      && Invoke(fd.value, [size], g).value.value % 16 == 0
      && StackPointer in Invoke(fd.value, [size], g).globals
      && Invoke(fd.value, [size], g).globals[StackPointer] == Invoke(fd.value, [size], g).value.value
  {
    ExportedHelpers(m);
    ghost var fd := ExportedFunction(Transform(m).value, "stackAlloc");
    PushAligned(g, size);
    assert fd == Some(Push);
  }

  /** A second application is refused: the helper functions already exist. */
  lemma TransformTwiceRefused(m: ModuleState)
    requires CanTransform(m)
    ensures Transform(Transform(m).value).None?
  {
    assert "__fflush" in Transform(m).value.functions;
  }
}
