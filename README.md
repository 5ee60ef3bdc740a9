# AO process ABI shims, modelled in Dafny

This project models the parts of the AO WebAssembly process toolchain that
patch a compiled module to an Emscripten-style ABI (application binary
interface):

- **The AssemblyScript ABI transform** (`src/index.ts`, `MockEmscripten.afterCompile`).
  It adds seven helper functions to a binaryen module and rewrites its export
  table. The module handle is a class (`Binaryen.Module`) whose function table,
  export map and globals the methods update in place. The helper bodies are
  small i32 expression trees. `Binaryen.Eval` gives them a meaning, so each
  helper is proved as a transition on the `__stack_pointer` / `__heap_base`
  globals. For example, `__push` is a stackAlloc that rounds down to 16 bytes.
- **The reference-function extractor** (`src/function-extractor.ts`). A
  six-row name mapping drives a loop that fills a table from a reference
  module. Load failures fall back to an empty table. There are queries on the
  table and a `cleanup` that disposes the module once.
- **The two TinyGo process builds** (`ao-go-process/main_simple_tinygo.go`,
  `ao-go-process/main_tinygo.go`):
  - the bump allocators on `heapPtr` (8-aligned `malloc`, 16-aligned `stackAlloc`);
  - the constant and no-op stack stubs;
  - `handle` / `getResultLength` / `readStringFromMemory`;
  - `handleAO`'s action dispatch on the message's tags.

  The message handling is the same text in both files, so it is modelled once,
  in `AoHandler`.

Machine words are integers in `[0, 2^32)` (`Words.u32`). `Words` writes out
wrap-around addition and subtraction and the bitwise AND, one bit at a time:

- `i32.sub` and Go's `uint32` `+` wrap (`Words.Add`, `Words.Sub`);
- `i32.and` and `&^` are exact (`Words.And`, `Words.AndNot`).

Alignment facts are proved about these definitions, not assumed.

Three behaviours of the code that the model keeps as they are:

- binaryen's `add*Export` aborts on a name that is already exported. Only
  `handle` is removed first.
- The extractor keeps the reference module until `cleanup`.
- The simple build's `malloc` rounds sizes up to 8 and returns 0 for size 0.

Files: `wrappers.dfy` (Option), `words.dfy`, `binaryen.dfy`,
`mock_emscripten.dfy`, `function_extractor.dfy`, `ao_handler.dfy`,
`main_simple_tinygo.dfy`, `main_tinygo.dfy`.

## Model

| member | source | states |
|---|---|---|
| `Words.Add` | ao-go-process/main_simple_tinygo.go:179 | uint32 addition wraps: without overflow it is the plain sum |
| `Words.Sub` | src/index.ts:61-64 | i32.sub wraps: `a - b` when `b <= a`, else `2^32 + a - b` |
| `Words.And` | src/index.ts:60-65 | i32.and, computed one bit at a time over 32 bits; the result is at most either operand |
| `Words.AndNot` | ao-go-process/main_simple_tinygo.go:177 | Go's `&^` on uint32, as AND with the complement; the result is at most its left operand |
| `Words.AndClearsLowBits` | src/index.ts:60-65 | `x & (2^32 - 2^k)` is `x` rounded down to a multiple of 2^k (the AND with -16 clears the low four bits) |
| `Words.AndNotClearsLowBits` | ao-go-process/main_simple_tinygo.go:177 | `x &^ (2^k - 1)` is `x - x mod 2^k` |
| `Words.AddKeepsAlignment` | ao-go-process/main_tinygo.go:157-159 | wrapping addition of two multiples of 8 (or 16) is a multiple of 8 (or 16) |
| `Binaryen.Apply` | src/index.ts:60-65 | i32.sub gives `x - y`, or `2^32 + x - y` when it underflows; i32.and is at most both operands |
| `Binaryen.Eval` | src/index.ts:12-79 | the meaning of a helper body (const, nop, global.get/set, local.get/tee, sub/and, block); a run may change values but never which globals exist or how many locals there are |
| `Binaryen.EvalBlock` | src/index.ts:57-70 | a block runs its children in order and yields the last child's value (nothing for an empty block); it keeps the globals' names and the number of locals |
| `Binaryen.Invoke` | src/index.ts:12-79 | a call is rejected unless the argument count matches the parameters, and it returns a value exactly when the function declares a result |
| `Binaryen.AddFunctionStep` | src/index.ts:12-18 | addFunction succeeds iff the name is new, and then adds exactly that function |
| `Binaryen.AddExportStep` | src/index.ts:87-93 | add*Export succeeds iff the external name is not yet exported, and then binds exactly it |
| `Binaryen.RemoveExportStep` | src/index.ts:98 | removeExport drops that name (a missing name is a no-op) and keeps every other export, function and global |
| `Binaryen.Module.constructor` | src/index.ts:7 | the handle holds the given module state |
| `Binaryen.Module.AddFunction` | src/index.ts:12-79 | the handle's new state is AddFunctionStep's; it is unchanged when the step is refused |
| `Binaryen.Module.AddExport` | src/index.ts:87-163 | the handle's new state is AddExportStep's; it is unchanged when the step is refused |
| `Binaryen.Module.AddFunctionExport` | src/index.ts:93-163 | as AddExport, for a function export |
| `Binaryen.Module.AddTableExport` | src/index.ts:109 | as AddExport, for a table export |
| `Binaryen.Module.AddMemoryExport` | src/index.ts:87 | as AddExport, for a memory export |
| `Binaryen.Module.RemoveExport` | src/index.ts:98 | the handle's new state is RemoveExportStep's |
| `MockEmscripten.WithHelpers` | src/index.ts:12-79 | the seven addFunction calls succeed iff no helper name is already a function; then the function table gains exactly the seven helpers |
| `MockEmscripten.WithEarlyExports` | src/index.ts:87-93 | `memory` and `__wasm_call_ctors` are added iff neither is exported yet |
| `MockEmscripten.WithHandle` | src/index.ts:98-99 | removeExport then re-add never fails; `handle` ends up bound to the entry point |
| `MockEmscripten.WithRuntimeExports` | src/index.ts:104-137 | `main`, the table, `fflush` and `emscripten_stack_init` are added iff none is exported yet |
| `MockEmscripten.WithStackExports` | src/index.ts:148-163 | the four stack exports are added iff none is exported yet |
| `MockEmscripten.ComposeExportGroups` | src/index.ts:87-163 | the three export groups, applied in order, succeed iff no fixed name is taken, and add up to the whole rewrite |
| `MockEmscripten.WithExports` | src/index.ts:87-163 | the export rewrite succeeds iff no fixed name other than `handle` is taken; then the exports are the old ones without `handle`, overridden by the eleven ABI bindings |
| `MockEmscripten.Transform` | src/index.ts:7-167 | afterCompile succeeds iff no helper name is a function and no fixed export name is taken; the result is the old module plus the helpers and the ABI exports, with the globals untouched |
| `MockEmscripten.AfterCompile` | src/index.ts:7-167 | the in-place transform succeeds exactly when Transform does, and leaves the module in Transform's state |
| `MockEmscripten.AddFunctions` | src/index.ts:12-79 | the seven in-place addFunction calls leave WithHelpers' state, and succeed iff no helper name was taken |
| `MockEmscripten.DefineExports` | src/index.ts:87-163 | the in-place export sequence succeeds exactly when WithExports does, and leaves its state |
| `MockEmscripten.AlignDown16` | src/index.ts:60-65 | the masked value is a multiple of 16, not above its input, and less than 16 below it |
| `MockEmscripten.PushIsStackAlloc` | src/index.ts:52-71 | `__push` stores `(sp - size) & -16` into `__stack_pointer` and returns that same value through the local.tee into local 1 |
| `MockEmscripten.PushAligned` | src/index.ts:52-71 | `__push` always returns, with a 16-aligned value that is the new stack pointer |
| `MockEmscripten.StackAllocBound` | src/index.ts:60-65 | the stackAlloc result is 16-aligned and at most `sp - size` (wrapping); it is at most `sp` whenever `size <= sp` |
| `MockEmscripten.StackSaveReads` | src/index.ts:28-34 | `__get_stack_pointer` returns the stack pointer and changes no global |
| `MockEmscripten.StackRestoreWrites` | src/index.ts:73-79 | `__set_stack_pointer(p)` sets the stack pointer to `p` and changes nothing else |
| `MockEmscripten.SaveAfterRestore` | src/index.ts:28-79 | stackSave after stackRestore(p) returns p |
| `MockEmscripten.ConstantHelpers` | src/index.ts:12-50 | `__fflush` and `__main` return 0 for every argument, `__noop` returns nothing, and none of them touches a global |
| `MockEmscripten.StackEndIsHeapBase` | src/index.ts:20-26 | `__get_heap_base` returns the `__heap_base` global verbatim |
| `MockEmscripten.ExportedFunction` | src/index.ts:93-163 | an export name reaches a function iff it is a function export of a defined function, and then it reaches that function |
| `MockEmscripten.AbiExportsLookup` | src/index.ts:87-163 | where each of the eleven fixed export names points |
| `MockEmscripten.TransformExports` | src/index.ts:87-163 | after the transform: `handle` is bound to `export:src/process/handle`, memory and table `0` are exported, every ABI binding holds, other exports are unchanged, globals are unchanged |
| `MockEmscripten.ExportedHelpers` | src/index.ts:93-163 | each exported runtime name reaches its helper; `handle` reaches the module's entry point when it exists |
| `MockEmscripten.ExportedStackAllocAligned` | src/index.ts:52-163 | the exported `stackAlloc` of a transformed module returns a 16-aligned pointer and leaves the stack pointer at it |
| `MockEmscripten.TransformTwiceRefused` | src/index.ts:12-18 | running the transform a second time is refused, since the helpers already exist |
| `FunctionExtractor.LoadedModule` | src/function-extractor.ts:26-39 | a module is held exactly when the read and the parse both succeeded |
| `FunctionExtractor.Resolves` | src/function-extractor.ts:71-86 | a row's function is found only if the name is in the module and the lookup does not throw |
| `FunctionExtractor.Record` | src/function-extractor.ts:73-80 | the record carries the target name and copies type, body and returnType; missing vars/params become empty lists |
| `FunctionExtractor.Step` | src/function-extractor.ts:70-87 | one loop iteration adds the row's target exactly when its function resolves, with a record named by the target, and changes no other entry |
| `FunctionExtractor.Fold` | src/function-extractor.ts:69-88 | the loop over the rows in order: entries are never removed, and an entry no row targets keeps its value |
| `FunctionExtractor.Extraction` | src/function-extractor.ts:26-39 | the table the extractor ends with; a failed load leaves it empty |
| `FunctionExtractor.FoldHas` | src/function-extractor.ts:69-88 | after the loop, a name is present iff it was before or some row with that target has a resolvable reference function |
| `FunctionExtractor.FoldRecord` | src/function-extractor.ts:69-88 | with distinct targets, a row whose function resolves leaves that function's record under its target |
| `FunctionExtractor.FoldNames` | src/function-extractor.ts:73-80 | every record's `name` is the key it is stored under |
| `FunctionExtractor.ThrowIsolated` | src/function-extractor.ts:69-88 | a lookup that throws has the same effect as a missing function: the other rows still run |
| `FunctionExtractor.TargetsDistinct` | src/function-extractor.ts:60-67 | the six target names are distinct and form TargetNames |
| `FunctionExtractor.ExtractionBounded` | src/function-extractor.ts:60-90 | the table's keys are among the six targets, so it has at most six entries, each named by its key |
| `FunctionExtractor.ExtractionContents` | src/function-extractor.ts:60-88 | a target is extracted iff its row's function resolves, and the record copies that function |
| `FunctionExtractor.EmscriptenFunctionExtractor.constructor` | src/function-extractor.ts:22-39 | construction always completes; after a failed read or parse the table is empty and no module is held |
| `FunctionExtractor.EmscriptenFunctionExtractor.LoadEmscriptenModule` | src/function-extractor.ts:26-39 | a parsed module is kept and extracted from; a failure leaves no module and an empty table |
| `FunctionExtractor.EmscriptenFunctionExtractor.ExtractFunctions` | src/function-extractor.ts:41-88 | a no-op without a module; otherwise the table after the six rows is Fold's |
| `FunctionExtractor.EmscriptenFunctionExtractor.HasFunction` | src/function-extractor.ts:93-95 | true iff some row targets the name and its reference function resolves; always false after a failed load |
| `FunctionExtractor.EmscriptenFunctionExtractor.GetFunction` | src/function-extractor.ts:97-99 | null exactly when hasFunction is false; otherwise the stored record, whose name is the one asked for |
| `FunctionExtractor.EmscriptenFunctionExtractor.GetAllFunctions` | src/function-extractor.ts:101-103 | the whole table, which has at most the six target names |
| `FunctionExtractor.EmscriptenFunctionExtractor.Cleanup` | src/function-extractor.ts:105-110 | disposes the held module if there is one, then holds none; the table is untouched |
| `FunctionExtractor.CleanupTwice` | src/function-extractor.ts:105-110 | two cleanups dispose at most once and leave the table alone |
| `AoHandler.DecodeMessage` | ao-go-process/main_simple_tinygo.go:33-36 | an object decodes to its fields and `null` to an empty map; any other value and any syntax error fail |
| `AoHandler.TagAction` | ao-go-process/main_simple_tinygo.go:41-48 | a tag carries an action only if it is an object whose `name` is "Action" and whose `value` is that string; non-objects carry none |
| `AoHandler.FirstAction` | ao-go-process/main_simple_tinygo.go:39-51 | the scan from the front stops at the first tag that carries an action; any action found is carried by some tag |
| `AoHandler.ActionOf` | ao-go-process/main_simple_tinygo.go:38-51 | the action is "Default" unless `Tags` is an array whose first action it is; a missing or non-array `Tags` gives "Default" |
| `AoHandler.OutputFor` | ao-go-process/main_simple_tinygo.go:53-60 | "Hello, world!" iff the action is "Hello", "Unknown action" otherwise |
| `AoHandler.CreateErrorResponse` | ao-go-process/main_simple_tinygo.go:86-96 | an ok=false response whose body reports the given error |
| `AoHandler.Reply` | ao-go-process/main_simple_tinygo.go:31-84 | the response is ok iff the message decodes; otherwise it is the "Invalid message JSON" error; an ok response has no error, no gas and one of the two outputs |
| `AoHandler.HandleAO` | ao-go-process/main_simple_tinygo.go:31-84 | an undecodable message gets the "Invalid message JSON" error; otherwise ok=true, the output for the first string Action tag (or "Default"), Error "", empty Messages/Spawns/Assignments, GasUsed 0 |
| `AoHandler.FirstActionIsFirstMatch` | ao-go-process/main_simple_tinygo.go:39-51 | the scan finds `v` iff some tag carries action `v` and no earlier tag carries any action |
| `AoHandler.FirstActionNone` | ao-go-process/main_simple_tinygo.go:39-51 | the scan finds nothing iff no tag carries an action |
| `AoHandler.SkippedTag` | ao-go-process/main_simple_tinygo.go:42-49 | non-object tags, non-Action tags and Action tags with a non-string value are skipped |
| `AoHandler.HelloIffFirstActionHello` | ao-go-process/main_simple_tinygo.go:39-60 | the output is "Hello, world!" iff the message has a `Tags` array whose first string Action is "Hello" |
| `AoHandler.ReadStringFromMemory` | ao-go-process/main_simple_tinygo.go:122-130 | "" for a zero pointer or length; otherwise the `length` bytes at `ptr`; it panics iff the length exceeds the 2^20-byte view or the read leaves memory |
| `AoHandler.Abort` | ao-go-process/main_tinygo.go:137-141 | abort never returns a value: it panics with "abort called" |
| `MainSimpleTinyGo.Align8` | ao-go-process/main_simple_tinygo.go:177 | `(size + 7) &^ 7` is a multiple of 8 in `[size, size + 8)`, or 0 once `size + 7` wraps |
| `MainSimpleTinyGo.MallocStep` | ao-go-process/main_simple_tinygo.go:171-181 | size 0 returns 0 and keeps the heap; otherwise it returns the old heapPtr and advances it by `align8(size)`; alignment is kept; without overflow the block fits below the new heapPtr |
| `MainSimpleTinyGo.Pointers` | ao-go-process/main_simple_tinygo.go:171-181 | the pointers a run of malloc calls returns: one per call, and 0 for each size-0 call |
| `MainSimpleTinyGo.HeapAfter` | ao-go-process/main_simple_tinygo.go:171-181 | heapPtr after a run of malloc calls; calls of size 0 never move it |
| `MainSimpleTinyGo.HeapAfterIsFootprint` | ao-go-process/main_simple_tinygo.go:177-179 | after a run, heapPtr is the start plus the sum of the aligned sizes, mod 2^32 |
| `MainSimpleTinyGo.HeapAfterSnoc` | ao-go-process/main_simple_tinygo.go:178-179 | one more call advances heapPtr by one more step |
| `MainSimpleTinyGo.PointerIsHeapBefore` | ao-go-process/main_simple_tinygo.go:173-180 | call `i` returns 0 for size 0 and otherwise heapPtr as the earlier calls left it |
| `MainSimpleTinyGo.Successive` | ao-go-process/main_simple_tinygo.go:177-180 | successive nonzero calls return `p_{i+1} = p_i + align8(s_i)` |
| `MainSimpleTinyGo.RunAligned` | ao-go-process/main_simple_tinygo.go:171-181 | from an 8-aligned start, heapPtr and every returned pointer stay 8-aligned |
| `MainSimpleTinyGo.NoOverlap` | ao-go-process/main_simple_tinygo.go:171-181 | without 32-bit overflow, a later nonzero block starts at or after the end of an earlier one |
| `MainSimpleTinyGo.StackSave` | ao-go-process/main_simple_tinygo.go:142-146 | always 65536 |
| `MainSimpleTinyGo.StackAlloc` | ao-go-process/main_simple_tinygo.go:153-157 | `65536 + size`, wrapping at 2^32; `size` past stackSave when it does not wrap |
| `MainSimpleTinyGo.StackGetEnd` | ao-go-process/main_simple_tinygo.go:159-163 | always 131072, one 64 KiB page above stackSave |
| `MainSimpleTinyGo.EmscriptenStackGetEnd` | ao-go-process/main_simple_tinygo.go:165-168 | always 131072 |
| `MainSimpleTinyGo.Instance.constructor` | ao-go-process/main_simple_tinygo.go:24-28 | heapPtr starts at 65536 and no result is stored |
| `MainSimpleTinyGo.Instance.Malloc` | ao-go-process/main_simple_tinygo.go:170-181 | the pointer and the new heapPtr are MallocStep's; the result buffer is untouched; 8-alignment is kept |
| `MainSimpleTinyGo.Instance.Free` | ao-go-process/main_simple_tinygo.go:183-186 | changes nothing |
| `MainSimpleTinyGo.Instance.StackRestore` | ao-go-process/main_simple_tinygo.go:148-151 | changes nothing |
| `MainSimpleTinyGo.Instance.StackInit` | ao-go-process/main_simple_tinygo.go:132-135 | changes nothing |
| `MainSimpleTinyGo.Instance.EmscriptenStackInit` | ao-go-process/main_simple_tinygo.go:137-140 | changes nothing |
| `MainSimpleTinyGo.Instance.Handle` | ao-go-process/main_simple_tinygo.go:98-113 | a failed read panics and leaves the buffer; otherwise the buffer holds the marshalled reply; the call returns the buffer's address iff the buffer is non-empty; heapPtr is untouched |
| `MainSimpleTinyGo.Instance.GetResultLength` | ao-go-process/main_simple_tinygo.go:115-119 | the stored buffer's length, truncated to 32 bits |
| `MainTinyGo.Align16` | ao-go-process/main_tinygo.go:157 | `(size + 15) &^ 15` is a multiple of 16 in `[size, size + 16)`, or 0 once `size + 15` wraps; 0 for size 0 |
| `MainTinyGo.HeapAfter` | ao-go-process/main_tinygo.go:155-161 | heapPtr after a run of stackAlloc calls; zero-sized calls never move it |
| `MainTinyGo.Pointers` | ao-go-process/main_tinygo.go:155-161 | the pointers a run of stackAlloc calls returns: one per call, the first being the starting heapPtr |
| `MainTinyGo.HeapAfterIsFootprint` | ao-go-process/main_tinygo.go:156-161 | after a run of stackAlloc calls, heapPtr is the start plus the sum of the aligned sizes, mod 2^32 |
| `MainTinyGo.RunAligned` | ao-go-process/main_tinygo.go:155-161 | from a 16-aligned start, heapPtr and every returned pointer stay 16-aligned, also across wrap-around |
| `MainTinyGo.Instance.constructor` | ao-go-process/main_tinygo.go:27-30 | heapPtr starts at 65536 and no result is stored |
| `MainTinyGo.Instance.StackAlloc` | ao-go-process/main_tinygo.go:155-161 | returns the old heapPtr and advances it by `align16(size)` (not at all for size 0); 16-alignment is kept |
| `MainTinyGo.Instance.StackSave` | ao-go-process/main_tinygo.go:144-147 | returns heapPtr |
| `MainTinyGo.Instance.StackRestore` | ao-go-process/main_tinygo.go:149-153 | changes nothing; heapPtr is never reset |
| `MainTinyGo.Instance.Handle` | ao-go-process/main_tinygo.go:102-116 | as in the simple build |
| `MainTinyGo.Instance.GetResultLength` | ao-go-process/main_tinygo.go:118-122 | the stored buffer's length, truncated to 32 bits |
| `MainTinyGo.SaveAfterAlloc` | ao-go-process/main_tinygo.go:144-161 | stackSave right after stackAlloc(n) returns the old pointer plus `align16(n)` |
| `MainTinyGo.SaveAfterRestore` | ao-go-process/main_tinygo.go:144-153 | stackSave after stackRestore(q) returns the unchanged heapPtr |

## Left out

- `emscripten-runtime/minimal_emscripten.c` is not part of this model. It holds
  thin wrappers over the C library's malloc, free and abort.
- binaryen internals are not modelled. This covers `readBinary`, `createType`,
  validation, `dispose` and the copy-versus-alias behaviour of expression
  trees. Expressions and types the extractor copies are opaque numbers
  (`FunctionExtractor.Ref`), as binaryen.js hands them out.
- When binaryen aborts on a duplicate name, the model only says that the
  transform stops there. The module's state after that point is not promised.
- The shape of what binaryen's `getFunction` returns is taken from how
  src/function-extractor.ts:73-80 reads it: a record with type, body, vars,
  params and returnType fields (`FunctionExtractor.RefFunction`). binaryen.js
  is not part of this model.
- The reference binary's path, the file read, and every `console.log` /
  `console.warn` are left out as I/O. So is the debug enumeration loop
  (src/function-extractor.ts:44-57). A load is a `Load` value: the read failed,
  the parse failed, or a module.
- The JSON byte formats of `encoding/json` are left out. `parse` and `marshal`
  are function parameters, and JSON numbers are integers (floating point is
  not modelled).
- The "Failed to marshal response" branch of `handleAO` is left out: marshalling
  these records cannot fail. The environment string is read (and can panic) but
  is never used, as in the code.
- The address `&resultBuffer[0]` is chosen by the Go runtime, so it is the
  `address` parameter of `Handle`.
- The AssemblyScript `Transform` lifecycle that calls `afterCompile` is left
  out, and so are the Go `main` and `init` functions, which do nothing.
- No wiring exists in the code between the extractor and the transform. So
  there is no `__malloc_ptr` global, no signature check and no choice between
  a real and a stub function.
- `FunctionExtractor.EmscriptenFunctionExtractor.GetAllFunctions`: returns the
  table as a value. In the code it is the live `Map`, so a caller could mutate
  the extractor through it; that aliasing is not captured.
- `FunctionExtractor.EmscriptenFunctionExtractor.Cleanup`: a binaryen module is
  disposed by `dispose()`. The model records the modules handed to dispose in
  the ghost field `disposed`, and does not model what disposal frees.
- TinyGo's own malloc/free in the `main_tinygo.go` build is not part of this
  model; that file does not define them.
