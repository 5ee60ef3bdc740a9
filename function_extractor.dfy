/**
  The reference-function extractor: it loads a reference WebAssembly module and
  copies six named functions out of it, under the names the runtime expects,
  into a table that can then be queried.  Loading may fail; extraction then
  falls back to an empty table.
 */
module FunctionExtractor {
  import opened Wrappers

  /** binaryen refers to types and expressions by number. */
  type Ref = int

  /** What the reference module's getFunction reports about one function. */
  datatype RefFunction = RefFunction(
    typ: Ref,
    body: Ref,
    vars: Option<seq<Ref>>,
    params: Option<seq<Ref>>,
    returnType: Ref)

  /** A lookup by name either finds a function or throws. */
  datatype Lookup = Found(fn: RefFunction) | Throws(message: string)

  /** The parsed reference module; a name without an entry is not a function of it. */
  type RefModule = map<string, Lookup>

  /** Reading the binary from disk may fail, and so may parsing it. */
  datatype Load = ReadFailed | ParseFailed | Parsed(binary: RefModule)

  datatype ExtractedFunction = ExtractedFunction(
    name: string,
    typ: Ref,
    body: Ref,
    locals: seq<Ref>,
    params: seq<Ref>,
    returnType: Ref)

  /** One row of the extraction table: the name in the reference module and the name it gets. */
  datatype NameMapping = NameMapping(wasmName: string, targetName: string)

  const FunctionsToExtract: seq<NameMapping> := [
    NameMapping("emsc_malloc", "malloc"),
    NameMapping("emsc_free", "free"),
    NameMapping("emsc_abort", "abort"),
    NameMapping("_emscripten_stack_alloc", "stackAlloc"),
    NameMapping("_emscripten_stack_restore", "stackRestore"),
    NameMapping("emscripten_stack_get_current", "stackSave")]

  const TargetNames: set<string> := {"malloc", "free", "abort", "stackAlloc", "stackRestore", "stackSave"}

  /** The module a load leaves in the extractor, if any. */
  function LoadedModule(load: Load): (r: Option<RefModule>)
    ensures r.Some? <==> load.Parsed?
    ensures r.Some? ==> r.value == load.binary
  {
    match load
    case Parsed(m) => Some(m)
    case _ => None
  }

  /** `wasmName` is a function of the module, and looking it up does not throw. */
  predicate Resolves(m: RefModule, wasmName: string): (b: bool)
    ensures wasmName !in m ==> !b
    ensures wasmName in m && m[wasmName].Throws? ==> !b
  {
    wasmName in m && m[wasmName].Found?
  }

  /** The record kept for a function found under `target`; absent vars/params become empty lists. */
  function Record(target: string, f: RefFunction): (r: ExtractedFunction)
    ensures r.name == target && r.typ == f.typ && r.body == f.body && r.returnType == f.returnType
    ensures r.locals == (if f.vars.Some? then f.vars.value else [])
    ensures r.params == (if f.params.Some? then f.params.value else [])
  {
    ExtractedFunction(target, f.typ, f.body, f.vars.GetOr([]), f.params.GetOr([]), f.returnType)
  }

  /** One iteration of the extraction loop: a thrown lookup and a missing function both leave the table alone. */
  function Step(m: RefModule, e: NameMapping, acc: map<string, ExtractedFunction>): (r: map<string, ExtractedFunction>)
    ensures r.Keys == acc.Keys + (if Resolves(m, e.wasmName) then {e.targetName} else {})
    ensures forall k :: k in acc && k != e.targetName ==> r[k] == acc[k]
    ensures Resolves(m, e.wasmName) ==> r[e.targetName].name == e.targetName
  {
    if Resolves(m, e.wasmName) then acc[e.targetName := Record(e.targetName, m[e.wasmName].fn)] else acc
  }

  /** The table after the loop has run over `es`, in order, starting from `acc`. */
  function Fold(m: RefModule, es: seq<NameMapping>, acc: map<string, ExtractedFunction>): (r: map<string, ExtractedFunction>)
    ensures acc.Keys <= r.Keys
    ensures forall k :: k in acc && (forall i :: 0 <= i < |es| ==> es[i].targetName != k) ==> r[k] == acc[k]
    decreases |es|
  {
    if |es| == 0 then acc else Step(m, es[|es| - 1], Fold(m, es[..|es| - 1], acc))
  }

  /** The table the extractor ends up with for a loaded module (or none). */
  function Extraction(loaded: Option<RefModule>): (r: map<string, ExtractedFunction>)
    ensures loaded.None? ==> r == map[]
  {
    match loaded
    case None => map[]
    case Some(m) => Fold(m, FunctionsToExtract, map[])
  }

  /** Some mapping row names `target` and its reference function resolves. */
  predicate Extractable(m: RefModule, es: seq<NameMapping>, target: string) {
    exists i :: 0 <= i < |es| && es[i].targetName == target && Resolves(m, es[i].wasmName)
  }

  predicate DistinctTargets(es: seq<NameMapping>) {
    forall i, j :: 0 <= i < j < |es| ==> es[i].targetName != es[j].targetName
  }

  // ---------------------------------------------------------------------------
  // Properties of the extraction loop

  /** A name is in the table iff it was there before or some row extracts it. */
  lemma {:induction false} FoldHas(m: RefModule, es: seq<NameMapping>, acc: map<string, ExtractedFunction>, t: string)
    ensures t in Fold(m, es, acc) <==> t in acc || Extractable(m, es, t)
    decreases |es|
  {
    if |es| > 0 {
      var n := |es| - 1;
      var front := es[..n];
      FoldHas(m, front, acc, t);
      if Extractable(m, es, t) && t !in acc {
        var i :| 0 <= i < |es| && es[i].targetName == t && Resolves(m, es[i].wasmName);
        if i < n {
          assert front[i] == es[i];
        }
      }
      if Extractable(m, front, t) {
        var i :| 0 <= i < |front| && front[i].targetName == t && Resolves(m, front[i].wasmName);
        assert es[i] == front[i];
      }
    }
  }

  /** With distinct target names, the record under a row's target is copied from that row's function. */
  lemma {:induction false} FoldRecord(m: RefModule, es: seq<NameMapping>, acc: map<string, ExtractedFunction>, i: nat)
    requires DistinctTargets(es) && i < |es| && Resolves(m, es[i].wasmName)
    ensures es[i].targetName in Fold(m, es, acc)
    ensures Fold(m, es, acc)[es[i].targetName] == Record(es[i].targetName, m[es[i].wasmName].fn)
    decreases |es|
  {
    var n := |es| - 1;
    var front := es[..n];
    if i < n {
      assert front[i] == es[i];
      assert DistinctTargets(front) by {
        forall a, b | 0 <= a < b < |front| ensures front[a].targetName != front[b].targetName {
          assert front[a] == es[a] && front[b] == es[b];
        }
      }
      FoldRecord(m, front, acc, i);
      assert es[n].targetName != es[i].targetName;
    }
  }

  /** Every record carries the name it is stored under. */
  lemma {:induction false} FoldNames(m: RefModule, es: seq<NameMapping>, acc: map<string, ExtractedFunction>)
    requires forall k :: k in acc ==> acc[k].name == k
    ensures forall k :: k in Fold(m, es, acc) ==> Fold(m, es, acc)[k].name == k
    decreases |es|
  {
    if |es| > 0 {
      FoldNames(m, es[..|es| - 1], acc);
    }
  }

  /**
    A lookup that throws is caught: the outcome is exactly as if the reference
    module had no function of that name, so the other rows still run.
   */
  lemma {:induction false} ThrowIsolated(m: RefModule, es: seq<NameMapping>, acc: map<string, ExtractedFunction>, w: string)
    requires w in m && m[w].Throws?
    ensures Fold(m, es, acc) == Fold(m - {w}, es, acc)
    decreases |es|
  {
    if |es| > 0 {
      ThrowIsolated(m, es[..|es| - 1], acc, w);
      var e := es[|es| - 1];
      assert Resolves(m, e.wasmName) <==> Resolves(m - {w}, e.wasmName);
      if Resolves(m, e.wasmName) {
        assert m[e.wasmName] == (m - {w})[e.wasmName];
      }
    }
  }

  lemma TargetsDistinct()
    ensures DistinctTargets(FunctionsToExtract)
    ensures forall i :: 0 <= i < |FunctionsToExtract| ==> FunctionsToExtract[i].targetName in TargetNames
    ensures |TargetNames| == 6
  {
  }

  /**
    The table only ever holds the six target names, each under its own name,
    so it has at most six entries.
   */
  lemma ExtractionBounded(loaded: Option<RefModule>)
    ensures Extraction(loaded).Keys <= TargetNames
    ensures |Extraction(loaded)| <= 6
    ensures forall k :: k in Extraction(loaded) ==> Extraction(loaded)[k].name == k
  {
    TargetsDistinct();
    if loaded.Some? {
      var m := loaded.value;
      forall t | t in Extraction(loaded) ensures t in TargetNames {
        FoldHas(m, FunctionsToExtract, map[], t);
      }
      FoldNames(m, FunctionsToExtract, map[]);
    }
    SubsetCard(Extraction(loaded).Keys, TargetNames);
  }

  lemma SubsetCard(a: set<string>, b: set<string>)
    requires a <= b
    ensures |a| <= |b|
  {
    assert b == a + (b - a);
  }

  /** A target is extracted iff its row's reference function resolves; the record then copies that function. */
  lemma ExtractionContents(m: RefModule, t: string)
    ensures t in Extraction(Some(m)) <==> Extractable(m, FunctionsToExtract, t)
    ensures forall i :: 0 <= i < |FunctionsToExtract| && Resolves(m, FunctionsToExtract[i].wasmName) ==>
      var e := FunctionsToExtract[i];
      e.targetName in Extraction(Some(m)) &&
      Extraction(Some(m))[e.targetName] == Record(e.targetName, m[e.wasmName].fn)
  {
    FoldHas(m, FunctionsToExtract, map[], t);
    TargetsDistinct();
    forall i | 0 <= i < |FunctionsToExtract| && Resolves(m, FunctionsToExtract[i].wasmName)
      ensures FunctionsToExtract[i].targetName in Extraction(Some(m))
      ensures Extraction(Some(m))[FunctionsToExtract[i].targetName]
        == Record(FunctionsToExtract[i].targetName, m[FunctionsToExtract[i].wasmName].fn)
    {
      FoldRecord(m, FunctionsToExtract, map[], i);
    }
  }

  // ---------------------------------------------------------------------------
  // The extractor object

  class EmscriptenFunctionExtractor {
    var emscriptenModule: Option<RefModule>
    var extractedFunctions: map<string, ExtractedFunction>
    /** The module the constructor loaded, kept after cleanup for the specification. */
    ghost var loaded: Option<RefModule>
    /** Every module handed to dispose, in order. */
    ghost var disposed: seq<RefModule>

    ghost predicate Valid()
      reads this
    {
      && extractedFunctions == Extraction(loaded)
      && |disposed| <= 1
      && (emscriptenModule.Some? ==> emscriptenModule == loaded && disposed == [])
      && (|disposed| == 1 ==> emscriptenModule.None? && loaded == Some(disposed[0]))
    }

    /** Construction never fails: a failed read or parse leaves an empty table. */
    constructor (load: Load)
      ensures Valid()
      ensures loaded == LoadedModule(load) && emscriptenModule == loaded && disposed == []
      ensures extractedFunctions == Extraction(LoadedModule(load))
    {
      emscriptenModule := None;
      extractedFunctions := map[];
      loaded := None;
      disposed := [];
      new;
      LoadEmscriptenModule(load);
    }

    method LoadEmscriptenModule(load: Load)
      requires emscriptenModule.None? && extractedFunctions == map[] && loaded.None? && disposed == []
      modifies this
      ensures loaded == LoadedModule(load) && emscriptenModule == loaded && disposed == []
      ensures extractedFunctions == Extraction(LoadedModule(load))
    {
      match load
      case ReadFailed =>
      case ParseFailed =>
      case Parsed(m) =>
        emscriptenModule := Some(m);
        loaded := Some(m);
        ExtractFunctions();
    }

    /** Runs the six rows in order; without a loaded module it does nothing. */
    method ExtractFunctions()
      modifies this
      ensures emscriptenModule == old(emscriptenModule) && loaded == old(loaded) && disposed == old(disposed)
      ensures old(emscriptenModule).None? ==> extractedFunctions == old(extractedFunctions)
      ensures old(emscriptenModule).Some? ==>
        extractedFunctions == Fold(old(emscriptenModule).value, FunctionsToExtract, old(extractedFunctions))
    {
      if emscriptenModule.None? {
        return;
      }
      var m := emscriptenModule.value;
      for i := 0 to |FunctionsToExtract|
        invariant emscriptenModule == old(emscriptenModule) && loaded == old(loaded) && disposed == old(disposed)
        invariant extractedFunctions == Fold(m, FunctionsToExtract[..i], old(extractedFunctions))
      {
        var e := FunctionsToExtract[i];
        assert FunctionsToExtract[..i + 1][..i] == FunctionsToExtract[..i];
        if e.wasmName in m {
          match m[e.wasmName]
          case Throws(_) =>
          case Found(f) =>
            extractedFunctions := extractedFunctions[e.targetName := Record(e.targetName, f)];
        }
      }
      assert FunctionsToExtract[..|FunctionsToExtract|] == FunctionsToExtract;
    }

    /** True iff a row names `name` and its reference function was found. */
    method HasFunction(name: string) returns (b: bool)
      requires Valid()
      ensures b == (name in extractedFunctions)
      ensures loaded.Some? ==> (b <==> Extractable(loaded.value, FunctionsToExtract, name))
      ensures loaded.None? ==> !b
    {
      b := name in extractedFunctions;
      if loaded.Some? {
        ExtractionContents(loaded.value, name);
      }
    }

    /** `None` (null) exactly when HasFunction is false; otherwise a record carrying `name`. */
    method GetFunction(name: string) returns (r: Option<ExtractedFunction>)
      requires Valid()
      ensures r.None? <==> name !in extractedFunctions
      ensures r.Some? ==> r.value == extractedFunctions[name] && r.value.name == name
    {
      ExtractionBounded(loaded);
      if name in extractedFunctions {
        r := Some(extractedFunctions[name]);
      } else {
        r := None;
      }
    }

    /** The whole table. */
    method GetAllFunctions() returns (r: map<string, ExtractedFunction>)
      requires Valid()
      ensures r == extractedFunctions
      ensures r.Keys <= TargetNames && |r| <= 6
    {
      ExtractionBounded(loaded);
      r := extractedFunctions;
    }

    /** Disposes the loaded module, if still held, and drops it; the table is kept. */
    method Cleanup()
      requires Valid()
      modifies this
      ensures Valid()
      ensures emscriptenModule.None? && extractedFunctions == old(extractedFunctions) && loaded == old(loaded)
      ensures disposed == old(disposed) + (if old(emscriptenModule).Some? then [old(emscriptenModule).value] else [])
    {
      if emscriptenModule.Some? {
        disposed := disposed + [emscriptenModule.value];
        emscriptenModule := None;
      }
    }
  }

  /** Cleaning up twice disposes at most once: the second call finds no module. */
  method CleanupTwice(x: EmscriptenFunctionExtractor)
    requires x.Valid()
    modifies x
    ensures x.Valid() && |x.disposed| <= 1
    ensures x.extractedFunctions == old(x.extractedFunctions)
    ensures x.disposed == old(x.disposed) + (if old(x.emscriptenModule).Some? then [old(x.emscriptenModule).value] else [])
  {
    x.Cleanup();
    x.Cleanup();
  }
}
