/** The payload loop of `parse_module_with_offsets`: the decoder's payloads
    are processed in order, building the module, the type table and the
    code-section counters; the first error ends the conversion.

    The pure part states one payload (and one section entry) as a function
    on a `ParseState` value; `ParseModule` is the loop itself, proved equal
    to the fold of `Step` over the payloads. */
module ModuleParser {
  import opened Base
  import A = Ast
  import D = Decoded
  import opened Conversions
  import opened FuncTypes
  import opened Instructions
  import opened Bodies

  /** A code-section body waiting for the end of the code section, with the
      function index it was given. */
  datatype Pending = Pending(funcIdx: nat, body: D.FunctionBody)

  /** The variables of the payload loop. */
  datatype ParseState = ParseState(
    ast: A.Module,
    types: TypeTable,
    importedFunctionCount: nat,
    currentCodeIdx: nat,
    codeEntriesCount: nat,
    functionBodies: seq<Pending>,
    lastSection: Option<A.SectionKind>)

  const InitialState: ParseState := ParseState(A.EmptyModule, None, 0, 0, 0, [], None)

  /* ---------- import section ---------- */

  /** One import: the field name is required (checked first), then the
      imported entity is appended to its vector. Only a function import
      counts towards `imported_function_count`. */
  function ImportEntry(st: ParseState, imp: D.Import): (r: Result<ParseState>)
    ensures imp.field.None? ==> r == Err(Unsupported(ModuleLinking))
    ensures imp.ty.TagImport? && imp.field.Some? ==> r == Err(Unsupported(ExceptionHandling))
    ensures (imp.ty.ModuleImport? || imp.ty.InstanceImport?) ==> r == Err(Unsupported(ModuleLinking))
    ensures r.Ok? ==> r.value.types == st.types &&
                      r.value.currentCodeIdx == st.currentCodeIdx &&
                      r.value.codeEntriesCount == st.codeEntriesCount &&
                      r.value.functionBodies == st.functionBodies
    ensures r.Ok? ==> r.value.importedFunctionCount == st.importedFunctionCount + (if imp.ty.FunctionImport? then 1 else 0)
    ensures r.Ok? && imp.ty.FunctionImport? ==>
              imp.field.Some? && Lookup(st.types, imp.ty.typeIndex).Ok? &&
              r.value.ast == st.ast.(functions := st.ast.functions + [A.Function(
                Lookup(st.types, imp.ty.typeIndex).value, A.Imported(A.ImportName(imp.importModule, imp.field.value)), [], None)])
    ensures imp.ty.FunctionImport? && imp.field.Some? ==> (r.Ok? <==> Lookup(st.types, imp.ty.typeIndex).Ok?)
    ensures r.Ok? && imp.ty.GlobalImport? ==>
              imp.field.Some? && ConvertGlobalTy(imp.ty.globalType).Ok? &&
              r.value.ast == st.ast.(globals := st.ast.globals + [A.Global.Global(
                ConvertGlobalTy(imp.ty.globalType).value, A.Imported(A.ImportName(imp.importModule, imp.field.value)), [])])
    ensures r.Ok? && imp.ty.TableImport? ==>
              imp.field.Some? && ConvertTableTy(imp.ty.tableType).Ok? &&
              r.value.ast == st.ast.(tables := st.ast.tables + [A.Table(
                ConvertTableTy(imp.ty.tableType).value, Some(A.ImportName(imp.importModule, imp.field.value)), [], [])])
    ensures r.Ok? && imp.ty.MemoryImport? ==>
              imp.field.Some? && ConvertMemoryTy(imp.ty.memoryType).Ok? &&
              r.value.ast == st.ast.(memories := st.ast.memories + [A.Memory(
                ConvertMemoryTy(imp.ty.memoryType).value, Some(A.ImportName(imp.importModule, imp.field.value)), [], [])])
  {
    match imp.field
    case None => Err(Unsupported(ModuleLinking))
    case Some(field) =>
      var origin := A.ImportName(imp.importModule, field);
      match imp.ty
      case FunctionImport(ti) =>
        var ft :- Lookup(st.types, ti);
        Ok(st.(importedFunctionCount := st.importedFunctionCount + 1,
               ast := st.ast.(functions := st.ast.functions + [A.Function(ft, A.Imported(origin), [], None)])))
      case GlobalImport(g) =>
        var gt :- ConvertGlobalTy(g);
        Ok(st.(ast := st.ast.(globals := st.ast.globals + [A.Global.Global(gt, A.Imported(origin), [])])))
      case TableImport(t) =>
        var tt :- ConvertTableTy(t);
        Ok(st.(ast := st.ast.(tables := st.ast.tables + [A.Table(tt, Some(origin), [], [])])))
      case MemoryImport(m) =>
        var mt :- ConvertMemoryTy(m);
        Ok(st.(ast := st.ast.(memories := st.ast.memories + [A.Memory(mt, Some(origin), [], [])])))
      case TagImport => Err(Unsupported(ExceptionHandling))
      case ModuleImport => Err(Unsupported(ModuleLinking))
      case InstanceImport => Err(Unsupported(ModuleLinking))
  }

  /* ---------- function, table, memory and global sections ---------- */

  /** One function-section entry: its type is looked up and a function with
      empty code is appended, to be filled in by the code section. */
  function FunctionEntry(st: ParseState, typeIndex: u32): (r: Result<ParseState>)
    ensures r.Ok? <==> Lookup(st.types, typeIndex).Ok?
    ensures r.Err? ==> r.error == Lookup(st.types, typeIndex).error
    ensures r.Ok? ==> r.value == st.(ast := st.ast.(functions :=
              st.ast.functions + [A.DefinedFunction(Lookup(st.types, typeIndex).value)]))
  {
    var ft :- Lookup(st.types, typeIndex);
    Ok(st.(ast := st.ast.(functions := st.ast.functions + [A.DefinedFunction(ft)])))
  }

  /** One table-section entry: a table without elements. */
  function TableEntry(st: ParseState, t: D.TableType): (r: Result<ParseState>)
    ensures r.Ok? <==> ConvertTableTy(t).Ok?
    ensures r.Err? ==> r.error == ConvertTableTy(t).error
    ensures r.Ok? ==> r.value == st.(ast := st.ast.(tables :=
              st.ast.tables + [A.Table(ConvertTableTy(t).value, None, [], [])]))
  {
    var tt :- ConvertTableTy(t);
    Ok(st.(ast := st.ast.(tables := st.ast.tables + [A.Table(tt, None, [], [])])))
  }

  /** One memory-section entry: a memory without data. */
  function MemoryEntry(st: ParseState, m: D.DecodedMemoryType): (r: Result<ParseState>)
    ensures r.Ok? <==> !m.memory64
    ensures r.Err? ==> r.error == Unsupported(Memory64)
    ensures r.Ok? ==> r.value == st.(ast := st.ast.(memories :=
              st.ast.memories + [A.Memory(ConvertMemoryTy(m).value, None, [], [])]))
  {
    var mt :- ConvertMemoryTy(m);
    Ok(st.(ast := st.ast.(memories := st.ast.memories + [A.Memory(mt, None, [], [])])))
  }

  /** One global-section entry: the type, then the initializer's operators. */
  function GlobalEntry(st: ParseState, g: D.GlobalDef): (r: Result<ParseState>)
    ensures r.Ok? <==> ConvertGlobalTy(g.ty).Ok? && ConvertOps(g.initExpr, st.types).Ok?
    ensures ConvertGlobalTy(g.ty).Err? ==> r == Err(ConvertGlobalTy(g.ty).error)
    ensures r.Ok? ==> r.value == st.(ast := st.ast.(globals := st.ast.globals +
              [A.Global.Global(ConvertGlobalTy(g.ty).value, A.Present(ConvertOps(g.initExpr, st.types).value), [])]))
  {
    var gt :- ConvertGlobalTy(g.ty);
    var init :- ConvertOps(g.initExpr, st.types);
    Ok(st.(ast := st.ast.(globals := st.ast.globals + [A.Global.Global(gt, A.Present(init), [])])))
  }

  /* ---------- export section ---------- */

  /** `after` is `before` with the entry at `idx` replaced by `updated`. */
  predicate UpdatedAt<T(==)>(before: seq<T>, after: seq<T>, idx: nat, updated: T)
  {
    |after| == |before| && idx < |before| && after[idx] == updated &&
    forall j :: 0 <= j < |before| && j != idx ==> after[j] == before[j]
  }

  /** One export: the index is checked against the entities of its kind so
      far and the export name is appended to that entity's export list;
      the other export kinds belong to later proposals. */
  function ExportEntry(st: ParseState, e: D.Export): (r: Result<ParseState>)
    ensures e.kind.FunctionKind? ==> (r.Ok? <==> e.index < |st.ast.functions|)
    ensures e.kind.TableKind? ==> (r.Ok? <==> e.index < |st.ast.tables|)
    ensures e.kind.MemoryKind? ==> (r.Ok? <==> e.index < |st.ast.memories|)
    ensures e.kind.GlobalKind? ==> (r.Ok? <==> e.index < |st.ast.globals|)
    ensures e.kind.FunctionKind? && e.index >= |st.ast.functions| ==> r == Err(IndexOutOfBounds(FunctionSpace, e.index))
    ensures e.kind.TableKind? && e.index >= |st.ast.tables| ==> r == Err(IndexOutOfBounds(TableSpace, e.index))
    ensures e.kind.MemoryKind? && e.index >= |st.ast.memories| ==> r == Err(IndexOutOfBounds(MemorySpace, e.index))
    ensures e.kind.GlobalKind? && e.index >= |st.ast.globals| ==> r == Err(IndexOutOfBounds(GlobalSpace, e.index))
    ensures e.kind.TagKind? ==> r == Err(Unsupported(ExceptionHandling))
    ensures e.kind.TypeKind? ==> r == Err(Unsupported(TypeImports))
    ensures e.kind.ModuleKind? || e.kind.InstanceKind? ==> r == Err(Unsupported(ModuleLinking))
    // on success exactly one entity gains the export name; nothing else changes
    ensures r.Ok? && e.kind.FunctionKind? ==>
              var f := st.ast.functions[e.index];
              UpdatedAt(st.ast.functions, r.value.ast.functions, e.index, f.(exports := f.exports + [e.field])) &&
              r.value == st.(ast := st.ast.(functions := r.value.ast.functions))
    ensures r.Ok? && e.kind.TableKind? ==>
              var t := st.ast.tables[e.index];
              UpdatedAt(st.ast.tables, r.value.ast.tables, e.index, t.(exports := t.exports + [e.field])) &&
              r.value == st.(ast := st.ast.(tables := r.value.ast.tables))
    ensures r.Ok? && e.kind.MemoryKind? ==>
              var m := st.ast.memories[e.index];
              UpdatedAt(st.ast.memories, r.value.ast.memories, e.index, m.(exports := m.exports + [e.field])) &&
              r.value == st.(ast := st.ast.(memories := r.value.ast.memories))
    ensures r.Ok? && e.kind.GlobalKind? ==>
              var g := st.ast.globals[e.index];
              UpdatedAt(st.ast.globals, r.value.ast.globals, e.index, g.(exports := g.exports + [e.field])) &&
              r.value == st.(ast := st.ast.(globals := r.value.ast.globals))
  {
    var m := st.ast;
    match e.kind
    case FunctionKind =>
      if e.index < |m.functions| then
        var f := m.functions[e.index];
        Ok(st.(ast := m.(functions := m.functions[e.index := f.(exports := f.exports + [e.field])])))
      else Err(IndexOutOfBounds(FunctionSpace, e.index))
    case TableKind =>
      if e.index < |m.tables| then
        var t := m.tables[e.index];
        Ok(st.(ast := m.(tables := m.tables[e.index := t.(exports := t.exports + [e.field])])))
      else Err(IndexOutOfBounds(TableSpace, e.index))
    case MemoryKind =>
      if e.index < |m.memories| then
        var mem := m.memories[e.index];
        Ok(st.(ast := m.(memories := m.memories[e.index := mem.(exports := mem.exports + [e.field])])))
      else Err(IndexOutOfBounds(MemorySpace, e.index))
    case GlobalKind =>
      if e.index < |m.globals| then
        var g := m.globals[e.index];
        Ok(st.(ast := m.(globals := m.globals[e.index := g.(exports := g.exports + [e.field])])))
      else Err(IndexOutOfBounds(GlobalSpace, e.index))
    case TagKind => Err(Unsupported(ExceptionHandling))
    case TypeKind => Err(Unsupported(TypeImports))
    case ModuleKind => Err(Unsupported(ModuleLinking))
    case InstanceKind => Err(Unsupported(ModuleLinking))
  }

  /* ---------- element and data sections ---------- */

  /** The items loop of an element segment: only function indices are 1.0. */
  function ElementFunctions(items: seq<D.ElementItem>): (r: Result<seq<u32>>)
    ensures r.Ok? <==> forall i :: 0 <= i < |items| ==> items[i].FuncItem?
    ensures r.Ok? ==> |r.value| == |items| && forall i :: 0 <= i < |items| ==> r.value[i] == items[i].funcIndex
    ensures r.Err? ==> r.error == Unsupported(ReferenceTypes)
    decreases |items|
  {
    if items == [] then Ok([])
    else
      var n := |items| - 1;
      assert forall i :: 0 <= i < n ==> items[..n][i] == items[i];
      var init :- ElementFunctions(items[..n]);
      match items[n]
      case FuncItem(idx) => Ok(init + [idx])
      case ExprItem => Err(Unsupported(ReferenceTypes))
  }

  /** One element segment: element type, then items, then the kind. Only an
      active segment is 1.0; it names an existing table, whose element type
      must match (with funcref the only element type, it always does), and
      is appended with its converted offset to that table's elements. */
  function ElementEntry(st: ParseState, el: D.ElementDef): (r: Result<ParseState>)
    ensures !el.ty.FuncRef? ==> r == Err(ConvertElemTy(el.ty).error)
    ensures el.ty.FuncRef? && ElementFunctions(el.items).Err? ==> r == Err(Unsupported(ReferenceTypes))
    ensures el.ty.FuncRef? && ElementFunctions(el.items).Ok? ==>
              (el.kind.PassiveElements? ==> r == Err(Unsupported(BulkMemoryOperations))) &&
              (el.kind.DeclaredElements? ==> r == Err(Unsupported(ReferenceTypes))) &&
              (el.kind.ActiveElements? && el.kind.tableIndex >= |st.ast.tables| ==>
                 r == Err(IndexOutOfBounds(TableSpace, el.kind.tableIndex)))
    ensures r.Ok? <==> el.ty.FuncRef? && ElementFunctions(el.items).Ok? && el.kind.ActiveElements? &&
                       el.kind.tableIndex < |st.ast.tables| && ConvertOps(el.kind.initExpr, st.types).Ok?
    ensures r.Ok? ==>
              var t := st.ast.tables[el.kind.tableIndex];
              var segment := A.Element(ConvertOps(el.kind.initExpr, st.types).value, ElementFunctions(el.items).value);
              UpdatedAt(st.ast.tables, r.value.ast.tables, el.kind.tableIndex, t.(elements := t.elements + [segment])) &&
              r.value == st.(ast := st.ast.(tables := r.value.ast.tables))
  {
    var elemType :- ConvertElemTy(el.ty);
    var items :- ElementFunctions(el.items);
    match el.kind
    case ActiveElements(ti, init) =>
      if ti >= |st.ast.tables| then Err(IndexOutOfBounds(TableSpace, ti))
      else
        var t := st.ast.tables[ti];
        if t.tableType.elemType != elemType then Err(TableElementTypeMismatch)
        else
          var offset :- ConvertOps(init, st.types);
          Ok(st.(ast := st.ast.(tables := st.ast.tables[ti := t.(elements := t.elements + [A.Element(offset, items)])])))
    case PassiveElements => Err(Unsupported(BulkMemoryOperations))
    case DeclaredElements => Err(Unsupported(ReferenceTypes))
  }

  /** One data segment: only an active segment is 1.0; it names an existing
      memory and is appended with its converted offset to that memory's data. */
  function DataEntry(st: ParseState, seg: D.DataDef): (r: Result<ParseState>)
    ensures seg.kind.PassiveData? ==> r == Err(Unsupported(BulkMemoryOperations))
    ensures seg.kind.ActiveData? && seg.kind.memoryIndex >= |st.ast.memories| ==>
              r == Err(IndexOutOfBounds(MemorySpace, seg.kind.memoryIndex))
    ensures r.Ok? <==> seg.kind.ActiveData? && seg.kind.memoryIndex < |st.ast.memories| &&
                       ConvertOps(seg.kind.initExpr, st.types).Ok?
    ensures r.Ok? ==>
              var m := st.ast.memories[seg.kind.memoryIndex];
              var data := A.Data(ConvertOps(seg.kind.initExpr, st.types).value, seg.bytes);
              UpdatedAt(st.ast.memories, r.value.ast.memories, seg.kind.memoryIndex, m.(data := m.data + [data])) &&
              r.value == st.(ast := st.ast.(memories := r.value.ast.memories))
  {
    match seg.kind
    case ActiveData(mi, init) =>
      if mi >= |st.ast.memories| then Err(IndexOutOfBounds(MemorySpace, mi))
      else
        var m := st.ast.memories[mi];
        var offset :- ConvertOps(init, st.types);
        Ok(st.(ast := st.ast.(memories := st.ast.memories[mi := m.(data := m.data + [A.Data(offset, seg.bytes)])])))
    case PassiveData => Err(Unsupported(BulkMemoryOperations))
  }

  /* ---------- the "name" custom section ---------- */

  /** One function name: the function must exist; its name is set (a later
      name for the same function replaces an earlier one). */
  function FunctionNaming(st: ParseState, n: D.Naming): (r: Result<ParseState>)
    ensures r.Ok? <==> n.index < |st.ast.functions|
    ensures r.Err? ==> r.error == IndexOutOfBounds(FunctionSpace, n.index)
    ensures r.Ok? ==>
              var f := st.ast.functions[n.index];
              UpdatedAt(st.ast.functions, r.value.ast.functions, n.index, f.(name := Some(n.name))) &&
              r.value == st.(ast := st.ast.(functions := r.value.ast.functions))
  {
    if n.index < |st.ast.functions| then
      var f := st.ast.functions[n.index];
      Ok(st.(ast := st.ast.(functions := st.ast.functions[n.index := f.(name := Some(n.name))])))
    else Err(IndexOutOfBounds(FunctionSpace, n.index))
  }

  /** The local names of one function: the function must exist. */
  function LocalNaming(st: ParseState, n: D.IndirectNaming): (r: Result<ParseState>)
    ensures r.Ok? <==> n.indirectIndex < |st.ast.functions|
    ensures r.Err? ==> r.error == IndexOutOfBounds(FunctionSpace, n.indirectIndex)
    ensures r.Ok? ==> r.value == st
  {
    if n.indirectIndex < |st.ast.functions| then Ok(st)
    else Err(IndexOutOfBounds(FunctionSpace, n.indirectIndex))
  }

  /** One subsection of the name section. A second module name is rejected. */
  function NameEntry(st: ParseState, sub: D.NameSubsection): (r: Result<ParseState>)
    ensures sub.ModuleName? ==> (r.Ok? <==> st.ast.name.None?)
    ensures sub.ModuleName? && st.ast.name.Some? ==> r == Err(DuplicateModuleName)
    ensures sub.ModuleName? && r.Ok? ==> r.value == st.(ast := st.ast.(name := Some(sub.name)))
    ensures sub.FunctionNames? ==> r == Fold(FunctionNaming, st, sub.names)
    ensures sub.LocalNames? ==> r == Fold(LocalNaming, st, sub.functions)
    ensures sub.OtherNames? ==> r == Ok(st)
  {
    match sub
    case ModuleName(n) =>
      if st.ast.name.Some? then Err(DuplicateModuleName)
      else Ok(st.(ast := st.ast.(name := Some(n))))
    case FunctionNames(names) => Fold(FunctionNaming, st, names)
    case LocalNames(fs) => Fold(LocalNaming, st, fs)
    case OtherNames => Ok(st)
  }

  /* ---------- the code section ---------- */

  /** A waiting body after conversion, with its function index. */
  datatype Converted = Converted(funcIdx: nat, code: Result<A.Code>)

  /** The conversion of the waiting bodies (done in parallel in the source,
      collected in order). */
  function ConvertAll(bodies: seq<Pending>, types: TypeTable): (cs: seq<Converted>)
    ensures |cs| == |bodies|
    ensures forall k :: 0 <= k < |bodies| ==> cs[k] == Converted(bodies[k].funcIdx, ParseBodySpec(bodies[k].body, types))
  {
    seq(|bodies|, k requires 0 <= k < |bodies| => Converted(bodies[k].funcIdx, ParseBodySpec(bodies[k].body, types)))
  }

  /** Stores one conversion result: the index check comes before the body's
      own conversion error. */
  function StoreCode(m: A.Module, c: Converted): (r: Result<A.Module>)
    ensures c.funcIdx >= |m.functions| ==> r == Err(IndexOutOfBounds(FunctionSpace, c.funcIdx))
    ensures r.Ok? <==> c.funcIdx < |m.functions| && c.code.Ok?
    ensures c.funcIdx < |m.functions| && c.code.Err? ==> r == Err(c.code.error)
    ensures r.Ok? ==>
              var f := m.functions[c.funcIdx];
              UpdatedAt(m.functions, r.value.functions, c.funcIdx, f.(code := A.Present(c.code.value))) &&
              r.value == m.(functions := r.value.functions)
  {
    if c.funcIdx >= |m.functions| then Err(IndexOutOfBounds(FunctionSpace, c.funcIdx))
    else
      var code :- c.code;
      var f := m.functions[c.funcIdx];
      Ok(m.(functions := m.functions[c.funcIdx := f.(code := A.Present(code))]))
  }

  /** The end of the code section: all waiting bodies are converted, then
      the results are stored in order, stopping at the first failure. */
  function FlushBodies(m: A.Module, bodies: seq<Pending>, types: TypeTable): Result<A.Module>
  {
    Fold(StoreCode, m, ConvertAll(bodies, types))
  }

  /** One code-section entry: it gets the function index
      `imported_function_count + current_code_idx` and waits; the entry that
      completes the announced count stores all waiting bodies. */
  function CodeEntry(st: ParseState, body: D.FunctionBody): (r: Result<ParseState>)
    ensures st.currentCodeIdx + 1 != st.codeEntriesCount ==>
              r == Ok(st.(currentCodeIdx := st.currentCodeIdx + 1,
                          functionBodies := st.functionBodies + [Pending(st.importedFunctionCount + st.currentCodeIdx, body)]))
    ensures st.currentCodeIdx + 1 == st.codeEntriesCount ==>
              var flushed := FlushBodies(st.ast, st.functionBodies + [Pending(st.importedFunctionCount + st.currentCodeIdx, body)], st.types);
              (r.Ok? <==> flushed.Ok?) &&
              (r.Err? ==> r.error == flushed.error) &&
              (r.Ok? ==> r.value == st.(ast := flushed.value, currentCodeIdx := st.currentCodeIdx + 1, functionBodies := []))
  {
    var idx := st.currentCodeIdx + 1;
    var bodies := st.functionBodies + [Pending(st.importedFunctionCount + st.currentCodeIdx, body)];
    if idx == st.codeEntriesCount then
      var m :- FlushBodies(st.ast, bodies, st.types);
      Ok(st.(ast := m, currentCodeIdx := idx, functionBodies := []))
    else
      Ok(st.(currentCodeIdx := idx, functionBodies := bodies))
  }

  /* ---------- the payload loop ---------- */

  /** One payload of the decoder. */
  function Step(st: ParseState, p: D.Payload): Result<ParseState>
  {
    match p
    case Version => Ok(st)
    case TypeSection(defs) =>
      var t :- TypeSectionSpec(st.types, defs);
      Ok(st.(types := t, lastSection := Some(A.TypeKind)))
    case ImportSection(imports) => Fold(ImportEntry, st.(lastSection := Some(A.ImportKind)), imports)
    case AliasSection => Err(Unsupported(ModuleLinking))
    case InstanceSection => Err(Unsupported(ModuleLinking))
    case FunctionSection(typeIndices) => Fold(FunctionEntry, st.(lastSection := Some(A.FunctionKind)), typeIndices)
    case TableSection(tables) => Fold(TableEntry, st.(lastSection := Some(A.TableKind)), tables)
    case MemorySection(memories) => Fold(MemoryEntry, st.(lastSection := Some(A.MemoryKind)), memories)
    case TagSection => Err(Unsupported(ExceptionHandling))
    case GlobalSection(globals) => Fold(GlobalEntry, st.(lastSection := Some(A.GlobalKind)), globals)
    case ExportSection(exports) => Fold(ExportEntry, st.(lastSection := Some(A.ExportKind)), exports)
    case StartSection(func) => Ok(st.(ast := st.ast.(start := Some(func)), lastSection := Some(A.StartKind)))
    case ElementSection(elements) => Fold(ElementEntry, st.(lastSection := Some(A.ElementKind)), elements)
    case DataCountSection => Err(Unsupported(BulkMemoryOperations))
    case DataSection(segments) => Fold(DataEntry, st.(lastSection := Some(A.DataKind)), segments)
    case CustomSection(name, content, subsections) =>
      if name == "name" then Fold(NameEntry, st.(lastSection := Some(A.CustomKind)), subsections)
      else Ok(st.(ast := st.ast.(customSections := st.ast.customSections + [A.RawCustomSection(name, content, st.lastSection)]),
                  lastSection := Some(A.CustomKind)))
    case CodeSectionStart(count) => Ok(st.(codeEntriesCount := count, functionBodies := [], lastSection := Some(A.CodeKind)))
    case CodeSectionEntry(body) => CodeEntry(st, body)
    case ModuleSectionStart => Err(Unsupported(ModuleLinking))
    case ModuleSectionEntry => Err(Unsupported(ModuleLinking))
    case UnknownSection => Err(UnknownSection)
    case End => Ok(st)
  }

  /** `parse_module_with_offsets` without the offsets: the payloads in order,
      from the empty module and no type section. */
  function ParseModuleSpec(payloads: seq<D.Payload>): Result<A.Module>
  {
    var st :- Fold(Step, InitialState, payloads);
    Ok(st.ast)
  }

  /* ---------- the loop itself ---------- */

  /** The states that agree with the `Types` object on the type table. */
  predicate SameTypes(t: TypeTable, st: ParseState)
  {
    st.types == t
  }

  /** The import section loop. */
  method ImportSection(st: ParseState, imports: seq<D.Import>, types: Types) returns (r: Result<ParseState>)
    requires st.types == types.table
    ensures r == Fold(ImportEntry, st, imports)
    ensures r.Ok? ==> r.value.types == st.types
  {
    var cur := st;
    var i := 0;
    while i < |imports|
      invariant 0 <= i <= |imports|
      invariant cur.types == st.types
      invariant Fold(ImportEntry, st, imports) == Fold(ImportEntry, cur, imports[i..])
    {
      assert imports[i..][0] == imports[i] && imports[i..][1..] == imports[i + 1..];
      var imp := imports[i];
      if imp.field.None? {
        return Err(Unsupported(ModuleLinking));
      }
      var origin := A.ImportName(imp.importModule, imp.field.value);
      match imp.ty {
        case FunctionImport(ti) =>
          var ft :- types.Get(ti);
          cur := cur.(importedFunctionCount := cur.importedFunctionCount + 1,
                      ast := cur.ast.(functions := cur.ast.functions + [A.Function(ft, A.Imported(origin), [], None)]));
        case GlobalImport(g) =>
          var gt :- ConvertGlobalTy(g);
          cur := cur.(ast := cur.ast.(globals := cur.ast.globals + [A.Global.Global(gt, A.Imported(origin), [])]));
        case TableImport(t) =>
          var tt :- ConvertTableTy(t);
          cur := cur.(ast := cur.ast.(tables := cur.ast.tables + [A.Table(tt, Some(origin), [], [])]));
        case MemoryImport(m) =>
          var mt :- ConvertMemoryTy(m);
          cur := cur.(ast := cur.ast.(memories := cur.ast.memories + [A.Memory(mt, Some(origin), [], [])]));
        case TagImport =>
          return Err(Unsupported(ExceptionHandling));
        case ModuleImport =>
          return Err(Unsupported(ModuleLinking));
        case InstanceImport =>
          return Err(Unsupported(ModuleLinking));
      }
      i := i + 1;
    }
    return Ok(cur);
  }

  /** The function section loop: each type index is looked up in `types`. */
  method FunctionSection(st: ParseState, typeIndices: seq<u32>, types: Types) returns (r: Result<ParseState>)
    requires st.types == types.table
    ensures r == Fold(FunctionEntry, st, typeIndices)
    ensures r.Ok? ==> r.value.types == st.types
  {
    var cur := st;
    var i := 0;
    while i < |typeIndices|
      invariant 0 <= i <= |typeIndices|
      invariant cur.types == st.types
      invariant Fold(FunctionEntry, st, typeIndices) == Fold(FunctionEntry, cur, typeIndices[i..])
    {
      assert typeIndices[i..][0] == typeIndices[i] && typeIndices[i..][1..] == typeIndices[i + 1..];
      var ft :- types.Get(typeIndices[i]);
      cur := cur.(ast := cur.ast.(functions := cur.ast.functions + [A.DefinedFunction(ft)]));
      i := i + 1;
    }
    return Ok(cur);
  }

  /** The global section loop, with the inner loop over the initializer. */
  method GlobalSection(st: ParseState, globals: seq<D.GlobalDef>, types: Types) returns (r: Result<ParseState>)
    requires st.types == types.table
    ensures r == Fold(GlobalEntry, st, globals)
    ensures r.Ok? ==> r.value.types == st.types
  {
    var cur := st;
    var i := 0;
    while i < |globals|
      invariant 0 <= i <= |globals|
      invariant cur.types == st.types
      invariant Fold(GlobalEntry, st, globals) == Fold(GlobalEntry, cur, globals[i..])
    {
      assert globals[i..][0] == globals[i] && globals[i..][1..] == globals[i + 1..];
      var gt :- ConvertGlobalTy(globals[i].ty);
      var init :- ConvertOperators(globals[i].initExpr, types);
      cur := cur.(ast := cur.ast.(globals := cur.ast.globals + [A.Global.Global(gt, A.Present(init), [])]));
      i := i + 1;
    }
    return Ok(cur);
  }

  /** The items loop of one element segment. */
  method ElementItems(items: seq<D.ElementItem>) returns (r: Result<seq<u32>>)
    ensures r == ElementFunctions(items)
  {
    var acc := [];
    var i := 0;
    while i < |items|
      invariant 0 <= i <= |items|
      invariant ElementFunctions(items[..i]) == Ok(acc)
    {
      assert items[..i + 1][..i] == items[..i];
      match items[i] {
        case FuncItem(idx) =>
          acc := acc + [idx];
        case ExprItem =>
          return Err(Unsupported(ReferenceTypes));
      }
      i := i + 1;
    }
    assert items[..i] == items;
    return Ok(acc);
  }

  /** The element section loop. */
  method ElementSection(st: ParseState, elements: seq<D.ElementDef>, types: Types) returns (r: Result<ParseState>)
    requires st.types == types.table
    ensures r == Fold(ElementEntry, st, elements)
    ensures r.Ok? ==> r.value.types == st.types
  {
    var cur := st;
    var i := 0;
    while i < |elements|
      invariant 0 <= i <= |elements|
      invariant cur.types == st.types
      invariant Fold(ElementEntry, st, elements) == Fold(ElementEntry, cur, elements[i..])
    {
      assert elements[i..][0] == elements[i] && elements[i..][1..] == elements[i + 1..];
      var el := elements[i];
      var elemType :- ConvertElemTy(el.ty);
      var items :- ElementItems(el.items);
      match el.kind {
        case ActiveElements(ti, init) =>
          if ti >= |cur.ast.tables| {
            return Err(IndexOutOfBounds(TableSpace, ti));
          }
          var t := cur.ast.tables[ti];
          if t.tableType.elemType != elemType {
            return Err(TableElementTypeMismatch);
          }
          var offset :- ConvertOperators(init, types);
          cur := cur.(ast := cur.ast.(tables := cur.ast.tables[ti := t.(elements := t.elements + [A.Element(offset, items)])]));
        case PassiveElements =>
          return Err(Unsupported(BulkMemoryOperations));
        case DeclaredElements =>
          return Err(Unsupported(ReferenceTypes));
      }
      i := i + 1;
    }
    return Ok(cur);
  }

  /** The data section loop. */
  method DataSection(st: ParseState, segments: seq<D.DataDef>, types: Types) returns (r: Result<ParseState>)
    requires st.types == types.table
    ensures r == Fold(DataEntry, st, segments)
    ensures r.Ok? ==> r.value.types == st.types
  {
    var cur := st;
    var i := 0;
    while i < |segments|
      invariant 0 <= i <= |segments|
      invariant cur.types == st.types
      invariant Fold(DataEntry, st, segments) == Fold(DataEntry, cur, segments[i..])
    {
      assert segments[i..][0] == segments[i] && segments[i..][1..] == segments[i + 1..];
      var seg := segments[i];
      match seg.kind {
        case ActiveData(mi, init) =>
          if mi >= |cur.ast.memories| {
            return Err(IndexOutOfBounds(MemorySpace, mi));
          }
          var mem := cur.ast.memories[mi];
          var offset :- ConvertOperators(init, types);
          cur := cur.(ast := cur.ast.(memories := cur.ast.memories[mi := mem.(data := mem.data + [A.Data(offset, seg.bytes)])]));
        case PassiveData =>
          return Err(Unsupported(BulkMemoryOperations));
      }
      i := i + 1;
    }
    return Ok(cur);
  }

  /** The loop over the subsections of the "name" section. */
  method NameSection(st: ParseState, subsections: seq<D.NameSubsection>) returns (r: Result<ParseState>)
    ensures r == Fold(NameEntry, st, subsections)
    ensures r.Ok? ==> r.value.types == st.types
  {
    var cur := st;
    var i := 0;
    while i < |subsections|
      invariant 0 <= i <= |subsections|
      invariant cur.types == st.types
      invariant Fold(NameEntry, st, subsections) == Fold(NameEntry, cur, subsections[i..])
    {
      assert subsections[i..][0] == subsections[i] && subsections[i..][1..] == subsections[i + 1..];
      match subsections[i] {
        case ModuleName(n) =>
          if cur.ast.name.Some? {
            return Err(DuplicateModuleName);
          }
          cur := cur.(ast := cur.ast.(name := Some(n)));
        case FunctionNames(names) =>
          FoldPreserves(FunctionNaming, s => SameTypes(st.types, s), cur, names);
          cur :- RunEntries(FunctionNaming, cur, names);
        case LocalNames(fs) =>
          FoldPreserves(LocalNaming, s => SameTypes(st.types, s), cur, fs);
          cur :- RunEntries(LocalNaming, cur, fs);
        case OtherNames =>
      }
      i := i + 1;
    }
    return Ok(cur);
  }

  /** The end of the code section: every waiting body is converted (the
      source does this in parallel, collecting the results in order), then
      the results are stored in order, stopping at the first error. */
  method StoreBodies(m: A.Module, bodies: seq<Pending>, types: Types) returns (r: Result<A.Module>)
    ensures r == FlushBodies(m, bodies, types.table)
  {
    var converted: seq<Converted> := [];
    for i := 0 to |bodies|
      invariant |converted| == i
      invariant forall j :: 0 <= j < i ==> converted[j] == Converted(bodies[j].funcIdx, ParseBodySpec(bodies[j].body, types.table))
    {
      var code := ParseBody(bodies[i].body, types);
      converted := converted + [Converted(bodies[i].funcIdx, code)];
    }
    assert converted == ConvertAll(bodies, types.table);
    var cur := m;
    for i := 0 to |converted|
      invariant Fold(StoreCode, m, converted) == Fold(StoreCode, cur, converted[i..])
    {
      assert converted[i..][0] == converted[i] && converted[i..][1..] == converted[i + 1..];
      var c := converted[i];
      if c.funcIdx >= |cur.functions| {
        return Err(IndexOutOfBounds(FunctionSpace, c.funcIdx));
      }
      var code :- c.code;
      cur := cur.(functions := cur.functions[c.funcIdx := cur.functions[c.funcIdx].(code := A.Present(code))]);
    }
    return Ok(cur);
  }

  /** One code-section entry. */
  method CodeSectionEntry(st: ParseState, body: D.FunctionBody, types: Types) returns (r: Result<ParseState>)
    requires st.types == types.table
    ensures r == CodeEntry(st, body)
    ensures r.Ok? ==> r.value.types == st.types
  {
    var funcIdx := st.importedFunctionCount + st.currentCodeIdx;
    var bodies := st.functionBodies + [Pending(funcIdx, body)];
    var idx := st.currentCodeIdx + 1;
    if idx == st.codeEntriesCount {
      var m :- StoreBodies(st.ast, bodies, types);
      return Ok(st.(ast := m, currentCodeIdx := idx, functionBodies := []));
    }
    return Ok(st.(currentCodeIdx := idx, functionBodies := bodies));
  }

  /** The type section against the `Types` object: the object then holds the
      table the section produces. */
  method TypeSection(st: ParseState, defs: seq<D.TypeDef>, types: Types) returns (r: Result<ParseState>)
    requires st.types == types.table
    modifies types
    ensures r.Ok? <==> TypeSectionSpec(st.types, defs).Ok?
    ensures r.Ok? ==> r.value == st.(types := TypeSectionSpec(st.types, defs).value) && types.table == r.value.types
    ensures r.Err? ==> r.error == TypeSectionSpec(st.types, defs).error
  {
    var _ :- types.TypeSection(defs);
    r := Ok(st.(types := types.table));
  }

  /** The table section loop. */
  method TableSection(st: ParseState, tables: seq<D.TableType>) returns (r: Result<ParseState>)
    ensures r == Fold(TableEntry, st, tables)
    ensures r.Ok? ==> r.value.types == st.types
  {
    FoldPreserves(TableEntry, s => SameTypes(st.types, s), st, tables);
    r := RunEntries(TableEntry, st, tables);
  }

  /** The memory section loop. */
  method MemorySection(st: ParseState, memories: seq<D.DecodedMemoryType>) returns (r: Result<ParseState>)
    ensures r == Fold(MemoryEntry, st, memories)
    ensures r.Ok? ==> r.value.types == st.types
  {
    FoldPreserves(MemoryEntry, s => SameTypes(st.types, s), st, memories);
    r := RunEntries(MemoryEntry, st, memories);
  }

  /** The export section loop. */
  method ExportSection(st: ParseState, exports: seq<D.Export>) returns (r: Result<ParseState>)
    ensures r == Fold(ExportEntry, st, exports)
    ensures r.Ok? ==> r.value.types == st.types
  {
    FoldPreserves(ExportEntry, s => SameTypes(st.types, s), st, exports);
    r := RunEntries(ExportEntry, st, exports);
  }

  /** The payloads whose section is a loop over its entries. */
  predicate IsEntrySection(p: D.Payload)
  {
    p.ImportSection? || p.FunctionSection? || p.TableSection? || p.MemorySection? || p.GlobalSection? ||
    p.ExportSection? || p.ElementSection? || p.DataSection? || p.CustomSection?
  }

  /** A section with an entry loop: it only reads the `Types` object. */
  method EntrySection(st: ParseState, p: D.Payload, types: Types) returns (r: Result<ParseState>)
    requires st.types == types.table && IsEntrySection(p)
    ensures r == Step(st, p)
    ensures r.Ok? ==> r.value.types == st.types
  {
    if p.ImportSection? {
      r := ImportSection(st.(lastSection := Some(A.ImportKind)), p.imports, types);
    } else if p.FunctionSection? {
      r := FunctionSection(st.(lastSection := Some(A.FunctionKind)), p.typeIndices, types);
    } else if p.TableSection? {
      r := TableSection(st.(lastSection := Some(A.TableKind)), p.tables);
    } else if p.MemorySection? {
      r := MemorySection(st.(lastSection := Some(A.MemoryKind)), p.memories);
    } else if p.GlobalSection? {
      r := GlobalSection(st.(lastSection := Some(A.GlobalKind)), p.globals, types);
    } else if p.ExportSection? {
      r := ExportSection(st.(lastSection := Some(A.ExportKind)), p.exports);
    } else if p.ElementSection? {
      r := ElementSection(st.(lastSection := Some(A.ElementKind)), p.elements, types);
    } else if p.DataSection? {
      r := DataSection(st.(lastSection := Some(A.DataKind)), p.segments, types);
    } else if p.name == "name" {
      r := NameSection(st.(lastSection := Some(A.CustomKind)), p.nameSubsections);
    } else {
      var raw := A.RawCustomSection(p.name, p.content, st.lastSection);
      r := Ok(st.(ast := st.ast.(customSections := st.ast.customSections + [raw]), lastSection := Some(A.CustomKind)));
    }
  }

  /** One payload; the type section updates the `Types` object, which every
      other payload only reads. */
  method ProcessPayload(st: ParseState, p: D.Payload, types: Types) returns (r: Result<ParseState>)
    requires st.types == types.table
    modifies types
    ensures r == Step(st, p)
    ensures r.Ok? ==> r.value.types == types.table
  {
    if IsEntrySection(p) {
      r := EntrySection(st, p, types);
      return;
    }
    match p {
      case Version =>
        r := Ok(st);
      case TypeSection(defs) =>
        r := TypeSection(st.(lastSection := Some(A.TypeKind)), defs, types);
      case AliasSection =>
        r := Err(Unsupported(ModuleLinking));
      case InstanceSection =>
        r := Err(Unsupported(ModuleLinking));
      case TagSection =>
        r := Err(Unsupported(ExceptionHandling));
      case StartSection(func) =>
        r := Ok(st.(ast := st.ast.(start := Some(func)), lastSection := Some(A.StartKind)));
      case DataCountSection =>
        r := Err(Unsupported(BulkMemoryOperations));
      case CodeSectionStart(count) =>
        r := Ok(st.(codeEntriesCount := count, functionBodies := [], lastSection := Some(A.CodeKind)));
      case CodeSectionEntry(body) =>
        r := CodeSectionEntry(st, body, types);
      case ModuleSectionStart =>
        r := Err(Unsupported(ModuleLinking));
      case ModuleSectionEntry =>
        r := Err(Unsupported(ModuleLinking));
      case UnknownSection =>
        r := Err(UnknownSection);
      case End =>
        r := Ok(st);
    }
  }


  /** `parse_module_with_offsets`: the payload loop with its state variables
      and the `Types` object, returning the module (the offsets are not
      modelled). */
  method ParseModule(payloads: seq<D.Payload>) returns (r: Result<A.Module>)
    ensures r == ParseModuleSpec(payloads)
  {
    var types := new Types();
    var st := InitialState;
    var i := 0;
    while i < |payloads|
      invariant 0 <= i <= |payloads|
      invariant st.types == types.table
      invariant Fold(Step, InitialState, payloads) == Fold(Step, st, payloads[i..])
    {
      assert payloads[i..][0] == payloads[i] && payloads[i..][1..] == payloads[i + 1..];
      st :- ProcessPayload(st, payloads[i], types);
      i := i + 1;
    }
    return Ok(st.ast);
  }

  /* ---------- function numbering ---------- */

  /** The number of function imports among `imports`. */
  function FunctionImports(imports: seq<D.Import>): (n: nat)
    ensures n <= |imports|
    decreases |imports|
  {
    if imports == [] then 0
    else (if imports[0].ty.FunctionImport? then 1 else 0) + FunctionImports(imports[1..])
  }

  /** The import section adds exactly its function imports to
      `imported_function_count`, and appends them, as imported functions,
      after the functions already there; the code-section counters and the
      type table are untouched. */
  lemma {:induction false} ImportSectionNumbering(st: ParseState, imports: seq<D.Import>)
    requires Fold(ImportEntry, st, imports).Ok?
    ensures var r := Fold(ImportEntry, st, imports).value;
            r.importedFunctionCount == st.importedFunctionCount + FunctionImports(imports) &&
            |r.ast.functions| == |st.ast.functions| + FunctionImports(imports) &&
            r.ast.functions[..|st.ast.functions|] == st.ast.functions &&
            (forall j :: |st.ast.functions| <= j < |r.ast.functions| ==> r.ast.functions[j].code.Imported?) &&
            r.types == st.types && r.currentCodeIdx == st.currentCodeIdx &&
            r.codeEntriesCount == st.codeEntriesCount && r.functionBodies == st.functionBodies
    decreases |imports|
  {
    if imports != [] {
      var st1 := ImportEntry(st, imports[0]).value;
      ImportSectionNumbering(st1, imports[1..]);
      var r := Fold(ImportEntry, st, imports).value;
      assert r == Fold(ImportEntry, st1, imports[1..]).value;
      if imports[0].ty.FunctionImport? {
        assert st1.ast.functions[..|st.ast.functions|] == st.ast.functions;
        assert st1.ast.functions[|st.ast.functions|].code.Imported?;
        assert r.ast.functions[..|st.ast.functions|] == r.ast.functions[..|st1.ast.functions|][..|st.ast.functions|];
      } else {
        assert st1.ast.functions == st.ast.functions;
      }
    }
  }

  /** The function section succeeds exactly when every type index resolves;
      it then appends one function with empty code per entry, with the
      looked-up type, and changes nothing else. */
  lemma {:induction false} FunctionSectionAppends(st: ParseState, typeIndices: seq<u32>)
    ensures Fold(FunctionEntry, st, typeIndices).Ok? <==>
            forall k :: 0 <= k < |typeIndices| ==> Lookup(st.types, typeIndices[k]).Ok?
    ensures Fold(FunctionEntry, st, typeIndices).Ok? ==>
              var r := Fold(FunctionEntry, st, typeIndices).value;
              |r.ast.functions| == |st.ast.functions| + |typeIndices| &&
              r.ast.functions[..|st.ast.functions|] == st.ast.functions &&
              (forall k :: 0 <= k < |typeIndices| ==>
                 r.ast.functions[|st.ast.functions| + k] == A.DefinedFunction(Lookup(st.types, typeIndices[k]).value)) &&
              r == st.(ast := st.ast.(functions := r.ast.functions))
    decreases |typeIndices|
  {
    if typeIndices != [] {
      var e := FunctionEntry(st, typeIndices[0]);
      assert forall k :: 1 <= k < |typeIndices| ==> typeIndices[k] == typeIndices[1..][k - 1];
      if e.Ok? {
        var st1 := e.value;
        FunctionSectionAppends(st1, typeIndices[1..]);
        if Fold(FunctionEntry, st, typeIndices).Ok? {
          var r := Fold(FunctionEntry, st, typeIndices).value;
          var n := |st.ast.functions|;
          assert r.ast.functions[..n] == r.ast.functions[..n + 1][..n];
          assert r.ast.functions[n] == st1.ast.functions[n];
          forall k | 1 <= k < |typeIndices|
            ensures r.ast.functions[n + k] == A.DefinedFunction(Lookup(st.types, typeIndices[k]).value)
          {
            assert r.ast.functions[n + k] == r.ast.functions[(n + 1) + (k - 1)];
          }
        }
      }
    }
  }

  /** The pending bodies of a run of code entries numbered from `base`. */
  function PendingFrom(base: nat, bodies: seq<D.FunctionBody>): (ps: seq<Pending>)
    ensures |ps| == |bodies|
    ensures forall k :: 0 <= k < |bodies| ==> ps[k] == Pending(base + k, bodies[k])
  {
    seq(|bodies|, k requires 0 <= k < |bodies| => Pending(base + k, bodies[k]))
  }

  /** Code entries before the last announced one only wait: the k-th of them
      is given function index `imported_function_count + current_code_idx + k`. */
  lemma {:induction false} CodeEntriesWait(st: ParseState, bodies: seq<D.FunctionBody>)
    requires st.currentCodeIdx + |bodies| < st.codeEntriesCount
    ensures Fold(CodeEntry, st, bodies) ==
            Ok(st.(currentCodeIdx := st.currentCodeIdx + |bodies|,
                   functionBodies := st.functionBodies + PendingFrom(st.importedFunctionCount + st.currentCodeIdx, bodies)))
    decreases |bodies|
  {
    var base := st.importedFunctionCount + st.currentCodeIdx;
    if bodies == [] {
      assert st.functionBodies + PendingFrom(base, bodies) == st.functionBodies;
    } else {
      var st1 := CodeEntry(st, bodies[0]).value;
      assert st1.functionBodies == st.functionBodies + [Pending(base, bodies[0])];
      CodeEntriesWait(st1, bodies[1..]);
      assert st1.functionBodies + PendingFrom(base + 1, bodies[1..]) ==
             st.functionBodies + PendingFrom(base, bodies);
    }
  }

  /** The entry that completes the announced count stores every waiting
      body, each at the index it was given, in order. */
  lemma {:induction false} CodeSectionEnds(st: ParseState, bodies: seq<D.FunctionBody>)
    requires |bodies| > 0 && st.currentCodeIdx + |bodies| == st.codeEntriesCount
    ensures var flushed := FlushBodies(st.ast, st.functionBodies + PendingFrom(st.importedFunctionCount + st.currentCodeIdx, bodies), st.types);
            Fold(CodeEntry, st, bodies) ==
            if flushed.Ok? then Ok(st.(ast := flushed.value, currentCodeIdx := st.codeEntriesCount, functionBodies := []))
            else Err(flushed.error)
  {
    var base := st.importedFunctionCount + st.currentCodeIdx;
    var n := |bodies| - 1;
    var front := bodies[..n];
    assert bodies == front + [bodies[n]];
    FoldAppend(CodeEntry, st, front, [bodies[n]]);
    CodeEntriesWait(st, front);
    var st1 := st.(currentCodeIdx := st.currentCodeIdx + n, functionBodies := st.functionBodies + PendingFrom(base, front));
    assert Fold(CodeEntry, st, front) == Ok(st1);
    assert Fold(CodeEntry, st, bodies) == Fold(CodeEntry, st1, [bodies[n]]);
    assert [bodies[n]][1..] == [];
    assert Fold(CodeEntry, st1, [bodies[n]]) == CodeEntry(st1, bodies[n]);
    PendingFromSnoc(st.functionBodies, base, bodies);
  }

  /** Numbering one more body extends the numbered bodies by one. */
  lemma PendingFromSnoc(ps: seq<Pending>, base: nat, bodies: seq<D.FunctionBody>)
    requires |bodies| > 0
    ensures var n := |bodies| - 1;
            ps + PendingFrom(base, bodies[..n]) + [Pending(base + n, bodies[n])] == ps + PendingFrom(base, bodies)
  {
    var n := |bodies| - 1;
    assert PendingFrom(base, bodies[..n]) + [Pending(base + n, bodies[n])] == PendingFrom(base, bodies);
  }

  /** The `count` function indices from `base` all exist in a module with
      `len` functions. */
  predicate IndicesExist(base: nat, count: nat, len: nat)
  {
    count == 0 || base + count <= len
  }

  /** Storing conversion results numbered from `base` succeeds exactly when
      every conversion succeeded and every index exists. */
  lemma {:induction false} StoreCodesOk(m: A.Module, base: nat, cs: seq<Converted>)
    requires forall k :: 0 <= k < |cs| ==> cs[k].funcIdx == base + k
    ensures Fold(StoreCode, m, cs).Ok? <==>
            (forall k :: 0 <= k < |cs| ==> cs[k].code.Ok?) && IndicesExist(base, |cs|, |m.functions|)
    decreases |cs|
  {
    if cs != [] {
      var s := StoreCode(m, cs[0]);
      assert cs[0].funcIdx == base;
      if s.Ok? {
        var m1 := s.value;
        var b1: nat := base + 1;
        var rest := cs[1..];
        assert Fold(StoreCode, m, cs) == Fold(StoreCode, m1, rest);
        assert |m1.functions| == |m.functions|;
        forall k | 0 <= k < |rest| ensures rest[k] == cs[k + 1] && rest[k].funcIdx == b1 + k {
        }
        StoreCodesOk(m1, b1, rest);
        if Fold(StoreCode, m, cs).Ok? {
          forall k | 0 <= k < |cs| ensures cs[k].code.Ok? {
            if k > 0 {
              assert cs[k] == rest[k - 1];
            }
          }
        } else if forall k :: 0 <= k < |rest| ==> rest[k].code.Ok? {
          assert !IndicesExist(b1, |rest|, |m1.functions|);
        } else {
          var k :| 0 <= k < |rest| && !rest[k].code.Ok?;
          assert !cs[k + 1].code.Ok?;
        }
      } else {
        assert Fold(StoreCode, m, cs).Err?;
        assert !(cs[0].code.Ok? && base < |m.functions|);
      }
    }
  }

  /** After storing conversion results numbered from `base`, each converted
      body is the code of the function at its index and nothing else has
      changed. */
  lemma {:induction false} StoreCodesAt(m: A.Module, base: nat, cs: seq<Converted>)
    requires forall k :: 0 <= k < |cs| ==> cs[k].funcIdx == base + k
    requires Fold(StoreCode, m, cs).Ok?
    ensures var r := Fold(StoreCode, m, cs).value;
            |r.functions| == |m.functions| && IndicesExist(base, |cs|, |m.functions|) &&
            (forall k :: 0 <= k < |cs| ==>
               cs[k].code.Ok? && r.functions[base + k] == m.functions[base + k].(code := A.Present(cs[k].code.value))) &&
            (forall j :: 0 <= j < |m.functions| && !(base <= j < base + |cs|) ==> r.functions[j] == m.functions[j]) &&
            r == m.(functions := r.functions)
    decreases |cs|
  {
    StoreCodesOk(m, base, cs);
    if cs != [] {
      var m1 := StoreCode(m, cs[0]).value;
      var b1: nat := base + 1;
      var rest := cs[1..];
      assert Fold(StoreCode, m, cs) == Fold(StoreCode, m1, rest);
      assert |m1.functions| == |m.functions|;
      forall k | 0 <= k < |rest| ensures rest[k] == cs[k + 1] && rest[k].funcIdx == b1 + k {
      }
      StoreCodesAt(m1, b1, rest);
      var r := Fold(StoreCode, m, cs).value;
      forall k | 1 <= k < |cs|
        ensures cs[k].code.Ok? && r.functions[base + k] == m.functions[base + k].(code := A.Present(cs[k].code.value))
      {
        assert rest[k - 1] == cs[k];
        assert r.functions[base + k] == r.functions[b1 + (k - 1)];
      }
    }
  }

  /** Entry `k` is the first of `cs` whose storing fails, with error `e`:
      the index check comes before the body's own conversion error. */
  predicate StoreFailsFirstAt(m: A.Module, base: nat, cs: seq<Converted>, k: nat, e: Error)
  {
    k < |cs| &&
    (forall j :: 0 <= j < k ==> cs[j].code.Ok?) && IndicesExist(base, k, |m.functions|) &&
    (if base + k >= |m.functions| then e == IndexOutOfBounds(FunctionSpace, base + k)
     else cs[k].code.Err? && e == cs[k].code.error)
  }

  /** When storing conversion results numbered from `base` fails, the error
      is that of the first failing entry, `k`. */
  lemma {:induction false} StoreCodesFirstError(m: A.Module, base: nat, cs: seq<Converted>) returns (k: nat)
    requires forall k :: 0 <= k < |cs| ==> cs[k].funcIdx == base + k
    requires Fold(StoreCode, m, cs).Err?
    ensures StoreFailsFirstAt(m, base, cs, k, Fold(StoreCode, m, cs).error)
    decreases |cs|
  {
    var e := Fold(StoreCode, m, cs).error;
    var s := StoreCode(m, cs[0]);
    assert cs[0].funcIdx == base;
    if s.Ok? {
      var m1 := s.value;
      var b1: nat := base + 1;
      var rest := cs[1..];
      assert cs[0].code.Ok? && base < |m.functions|;
      assert Fold(StoreCode, m, cs) == Fold(StoreCode, m1, rest);
      assert |m1.functions| == |m.functions|;
      forall j | 0 <= j < |rest| ensures rest[j] == cs[j + 1] && rest[j].funcIdx == b1 + j {
      }
      var k1 := StoreCodesFirstError(m1, b1, rest);
      k := k1 + 1;
      assert rest[k1] == cs[k] && b1 + k1 == base + k;
      assert forall j :: 0 <= j < k1 ==> rest[j].code.Ok?;
      forall j | 0 <= j < k ensures cs[j].code.Ok? {
        if j > 0 {
          assert rest[j - 1] == cs[j];
        }
      }
    } else {
      k := 0;
    }
  }

  /** Entry `k` is the first code-section entry whose storing fails, with
      error `e`: the entries before it convert and have a function; for
      entry `k` the index check comes before its own conversion error. */
  predicate EntryFailsFirstAt(m: A.Module, base: nat, bodies: seq<D.FunctionBody>, types: TypeTable, k: nat, e: Error)
  {
    k < |bodies| &&
    (forall j :: 0 <= j < k ==> ParseBodySpec(bodies[j], types).Ok?) && IndicesExist(base, k, |m.functions|) &&
    (if base + k >= |m.functions| then e == IndexOutOfBounds(FunctionSpace, base + k)
     else ParseBodySpec(bodies[k], types).Err? && e == ParseBodySpec(bodies[k], types).error)
  }

  /** Storing the converted bodies numbered from `base` succeeds exactly
      when every body converts and every function index exists. */
  lemma ConvertedStoresOk(m: A.Module, base: nat, bodies: seq<D.FunctionBody>, types: TypeTable)
    ensures Fold(StoreCode, m, ConvertAll(PendingFrom(base, bodies), types)).Ok? <==>
            (forall k :: 0 <= k < |bodies| ==> ParseBodySpec(bodies[k], types).Ok?) && IndicesExist(base, |bodies|, |m.functions|)
  {
    var cs := ConvertAll(PendingFrom(base, bodies), types);
    forall k | 0 <= k < |cs| ensures cs[k].funcIdx == base + k && cs[k].code == ParseBodySpec(bodies[k], types) {
    }
    StoreCodesOk(m, base, cs);
    if Fold(StoreCode, m, cs).Ok? {
      forall k | 0 <= k < |bodies| ensures ParseBodySpec(bodies[k], types).Ok? {
        assert cs[k].code.Ok?;
      }
    } else if IndicesExist(base, |bodies|, |m.functions|) {
      var k :| 0 <= k < |cs| && !cs[k].code.Ok?;
      assert !ParseBodySpec(bodies[k], types).Ok?;
    }
  }

  /** A whole code section, from its start: the bodies are numbered from
      `imported_function_count`, converted, and stored in order. */
  lemma CodeSectionStores(st: ParseState, bodies: seq<D.FunctionBody>)
    requires |bodies| > 0
    requires st.currentCodeIdx == 0 && st.functionBodies == [] && st.codeEntriesCount == |bodies|
    ensures var stored := Fold(StoreCode, st.ast, ConvertAll(PendingFrom(st.importedFunctionCount, bodies), st.types));
            Fold(CodeEntry, st, bodies) ==
            if stored.Ok? then Ok(st.(ast := stored.value, currentCodeIdx := |bodies|, functionBodies := []))
            else Err(stored.error)
  {
    CodeSectionEnds(st, bodies);
    assert st.functionBodies + PendingFrom(st.importedFunctionCount + st.currentCodeIdx, bodies) ==
           PendingFrom(st.importedFunctionCount, bodies);
  }

  /** A code section announcing `|bodies|` entries succeeds exactly when
      every body converts and the functions `imported_function_count + k`
      all exist. */
  lemma CodeSectionOk(st: ParseState, bodies: seq<D.FunctionBody>)
    requires |bodies| > 0
    requires st.currentCodeIdx == 0 && st.functionBodies == [] && st.codeEntriesCount == |bodies|
    ensures Fold(CodeEntry, st, bodies).Ok? <==>
            (forall k :: 0 <= k < |bodies| ==> ParseBodySpec(bodies[k], st.types).Ok?) &&
            st.importedFunctionCount + |bodies| <= |st.ast.functions|
  {
    CodeSectionStores(st, bodies);
    ConvertedStoresOk(st.ast, st.importedFunctionCount, bodies, st.types);
    match Fold(StoreCode, st.ast, ConvertAll(PendingFrom(st.importedFunctionCount, bodies), st.types)) {
      case Ok(_) => assert Fold(CodeEntry, st, bodies).Ok?;
      case Err(_) => assert Fold(CodeEntry, st, bodies).Err?;
    }
  }

  /** Storing the converted bodies numbered from `ifc`: function `ifc + k`
      gets the k-th body's code and every other function is unchanged. */
  lemma StoredNumbering(m: A.Module, ifc: nat, bodies: seq<D.FunctionBody>, types: TypeTable)
    requires Fold(StoreCode, m, ConvertAll(PendingFrom(ifc, bodies), types)).Ok?
    ensures var s := Fold(StoreCode, m, ConvertAll(PendingFrom(ifc, bodies), types)).value;
            |s.functions| == |m.functions| && IndicesExist(ifc, |bodies|, |m.functions|) &&
            (forall k :: 0 <= k < |bodies| ==>
               ParseBodySpec(bodies[k], types).Ok? &&
               s.functions[ifc + k] == m.functions[ifc + k].(code := A.Present(ParseBodySpec(bodies[k], types).value))) &&
            (forall j :: 0 <= j < |m.functions| && !(ifc <= j < ifc + |bodies|) ==> s.functions[j] == m.functions[j]) &&
            s == m.(functions := s.functions)
  {
    var cs := ConvertAll(PendingFrom(ifc, bodies), types);
    forall k | 0 <= k < |cs| ensures cs[k].funcIdx == ifc + k {
    }
    StoreCodesAt(m, ifc, cs);
    var s := Fold(StoreCode, m, cs).value;
    forall k | 0 <= k < |bodies|
      ensures ParseBodySpec(bodies[k], types).Ok? &&
              s.functions[ifc + k] == m.functions[ifc + k].(code := A.Present(ParseBodySpec(bodies[k], types).value))
    {
      assert cs[k].code == ParseBodySpec(bodies[k], types);
    }
  }

  /** Function numbering: in a code section announcing `|bodies|` entries,
      the k-th entry (from 0) is converted and stored as the code of
      function `imported_function_count + k`; no other function and nothing
      else in the module changes, and the code-section counters are left
      as at the end of the section. */
  lemma CodeSectionNumbering(st: ParseState, bodies: seq<D.FunctionBody>)
    requires |bodies| > 0
    requires st.currentCodeIdx == 0 && st.functionBodies == [] && st.codeEntriesCount == |bodies|
    requires Fold(CodeEntry, st, bodies).Ok?
    ensures var r := Fold(CodeEntry, st, bodies).value;
            |r.ast.functions| == |st.ast.functions| && st.importedFunctionCount + |bodies| <= |st.ast.functions|
    ensures var r := Fold(CodeEntry, st, bodies).value;
            var ifc := st.importedFunctionCount;
            forall k :: 0 <= k < |bodies| ==>
              ParseBodySpec(bodies[k], st.types).Ok? &&
              r.ast.functions[ifc + k] == st.ast.functions[ifc + k].(code := A.Present(ParseBodySpec(bodies[k], st.types).value))
    ensures var r := Fold(CodeEntry, st, bodies).value;
            var ifc := st.importedFunctionCount;
            forall j :: 0 <= j < |st.ast.functions| && !(ifc <= j < ifc + |bodies|) ==> r.ast.functions[j] == st.ast.functions[j]
    ensures var r := Fold(CodeEntry, st, bodies).value;
            r == st.(ast := st.ast.(functions := r.ast.functions), currentCodeIdx := |bodies|, functionBodies := [])
  {
    CodeSectionStores(st, bodies);
    StoredNumbering(st.ast, st.importedFunctionCount, bodies, st.types);
  }


  /** A failing code section fails with the error of its first failing
      entry `k`: the index check for function `imported_function_count + k`
      comes before that body's own conversion error. */
  lemma CodeSectionFirstError(st: ParseState, bodies: seq<D.FunctionBody>) returns (k: nat)
    requires |bodies| > 0
    requires st.currentCodeIdx == 0 && st.functionBodies == [] && st.codeEntriesCount == |bodies|
    requires Fold(CodeEntry, st, bodies).Err?
    ensures EntryFailsFirstAt(st.ast, st.importedFunctionCount, bodies, st.types, k, Fold(CodeEntry, st, bodies).error)
  {
    var ifc := st.importedFunctionCount;
    var cs := ConvertAll(PendingFrom(ifc, bodies), st.types);
    CodeSectionStores(st, bodies);
    k := StoreCodesFirstError(st.ast, ifc, cs);
    assert cs[k].code == ParseBodySpec(bodies[k], st.types);
    ConvertedPrefix(ifc, bodies, st.types, k);
  }

  /** When the converted bodies before `k` succeeded, the bodies themselves
      convert. */
  lemma ConvertedPrefix(base: nat, bodies: seq<D.FunctionBody>, types: TypeTable, k: nat)
    requires k <= |bodies|
    requires forall j :: 0 <= j < k ==> ConvertAll(PendingFrom(base, bodies), types)[j].code.Ok?
    ensures forall j :: 0 <= j < k ==> ParseBodySpec(bodies[j], types).Ok?
  {
    forall j | 0 <= j < k ensures ParseBodySpec(bodies[j], types).Ok? {
      assert ConvertAll(PendingFrom(base, bodies), types)[j].code == ParseBodySpec(bodies[j], types);
    }
  }

  /** The code-section entry payloads of a sequence of bodies. */
  function CodeEntries(bodies: seq<D.FunctionBody>): (ps: seq<D.Payload>)
    ensures |ps| == |bodies|
    ensures forall k :: 0 <= k < |bodies| ==> ps[k] == D.CodeSectionEntry(bodies[k])
  {
    seq(|bodies|, k requires 0 <= k < |bodies| => D.CodeSectionEntry(bodies[k]))
  }

  /** The payload loop over code-section entries is the fold of `CodeEntry`. */
  lemma {:induction false} CodeEntriesAsPayloads(st: ParseState, bodies: seq<D.FunctionBody>)
    ensures Fold(Step, st, CodeEntries(bodies)) == Fold(CodeEntry, st, bodies)
    decreases |bodies|
  {
    if bodies != [] {
      assert CodeEntries(bodies)[0] == D.CodeSectionEntry(bodies[0]);
      assert CodeEntries(bodies)[1..] == CodeEntries(bodies[1..]);
      match CodeEntry(st, bodies[0])
      case Err(_) =>
      case Ok(st1) => CodeEntriesAsPayloads(st1, bodies[1..]);
    }
  }

  /** The payload loop over a type section and what follows it. */
  lemma StepsTypeSection(st: ParseState, defs: seq<D.TypeDef>, rest: seq<D.Payload>)
    ensures Fold(Step, st, [D.TypeSection(defs)] + rest) ==
            if TypeSectionSpec(st.types, defs).Ok? then Fold(Step, st.(types := TypeSectionSpec(st.types, defs).value, lastSection := Some(A.TypeKind)), rest)
            else Err(TypeSectionSpec(st.types, defs).error)
  {
    assert ([D.TypeSection(defs)] + rest)[0] == D.TypeSection(defs) && ([D.TypeSection(defs)] + rest)[1..] == rest;
  }

  /** The payload loop over an import section and what follows it. */
  lemma StepsImportSection(st: ParseState, imports: seq<D.Import>, rest: seq<D.Payload>)
    ensures var s := st.(lastSection := Some(A.ImportKind));
            Fold(Step, st, [D.ImportSection(imports)] + rest) ==
            if Fold(ImportEntry, s, imports).Ok? then Fold(Step, Fold(ImportEntry, s, imports).value, rest)
            else Err(Fold(ImportEntry, s, imports).error)
  {
    assert ([D.ImportSection(imports)] + rest)[0] == D.ImportSection(imports) && ([D.ImportSection(imports)] + rest)[1..] == rest;
  }

  /** The payload loop over a function section and what follows it. */
  lemma StepsFunctionSection(st: ParseState, typeIndices: seq<u32>, rest: seq<D.Payload>)
    ensures var s := st.(lastSection := Some(A.FunctionKind));
            Fold(Step, st, [D.FunctionSection(typeIndices)] + rest) ==
            if Fold(FunctionEntry, s, typeIndices).Ok? then Fold(Step, Fold(FunctionEntry, s, typeIndices).value, rest)
            else Err(Fold(FunctionEntry, s, typeIndices).error)
  {
    assert ([D.FunctionSection(typeIndices)] + rest)[0] == D.FunctionSection(typeIndices) && ([D.FunctionSection(typeIndices)] + rest)[1..] == rest;
  }

  /** The payload loop over the start of a code section and what follows it. */
  lemma StepsCodeSectionStart(st: ParseState, count: u32, rest: seq<D.Payload>)
    ensures Fold(Step, st, [D.CodeSectionStart(count)] + rest) ==
            Fold(Step, st.(codeEntriesCount := count, functionBodies := [], lastSection := Some(A.CodeKind)), rest)
  {
    var xs := [D.CodeSectionStart(count)] + rest;
    assert xs[0] == D.CodeSectionStart(count) && xs[1..] == rest;
    assert Step(st, xs[0]) == Ok(st.(codeEntriesCount := count, functionBodies := [], lastSection := Some(A.CodeKind)));
  }

  /** The type, import and function sections of a module, one after the
      other: each section starts from the state the previous one left. */
  lemma FrontSections(defs: seq<D.TypeDef>, imports: seq<D.Import>, typeIndices: seq<u32>)
    requires Fold(Step, InitialState, [D.TypeSection(defs), D.ImportSection(imports), D.FunctionSection(typeIndices)]).Ok?
    ensures TypeSectionSpec(None, defs).Ok?
    ensures var s1 := InitialState.(types := TypeSectionSpec(None, defs).value, lastSection := Some(A.ImportKind));
            Fold(ImportEntry, s1, imports).Ok? &&
            var s2 := Fold(ImportEntry, s1, imports).value.(lastSection := Some(A.FunctionKind));
            Fold(FunctionEntry, s2, typeIndices).Ok? &&
            Fold(Step, InitialState, [D.TypeSection(defs), D.ImportSection(imports), D.FunctionSection(typeIndices)]) ==
            Fold(FunctionEntry, s2, typeIndices)
  {
    var rest2: seq<D.Payload> := [];
    var rest1 := [D.FunctionSection(typeIndices)] + rest2;
    var rest0 := [D.ImportSection(imports)] + rest1;
    assert [D.TypeSection(defs), D.ImportSection(imports), D.FunctionSection(typeIndices)] == [D.TypeSection(defs)] + rest0;
    StepsTypeSection(InitialState, defs, rest0);
    var s0 := InitialState.(types := TypeSectionSpec(None, defs).value, lastSection := Some(A.TypeKind));
    StepsImportSection(s0, imports, rest1);
    var s1 := s0.(lastSection := Some(A.ImportKind));
    var s2 := Fold(ImportEntry, s1, imports).value;
    StepsFunctionSection(s2, typeIndices, rest2);
    var s3 := Fold(FunctionEntry, s2.(lastSection := Some(A.FunctionKind)), typeIndices).value;
    assert Fold(Step, s3, rest2) == Ok(s3);
  }

  /** The functions after the declarations: `n` imported functions, then
      one defined function per entry of `typeIndices`, with the type it
      names. */
  predicate DeclaredFunctionSeq(fs: seq<A.Function>, n: nat, types: TypeTable, typeIndices: seq<u32>)
  {
    |fs| == n + |typeIndices| &&
    (forall j :: 0 <= j < n ==> fs[j].code.Imported?) &&
    (forall k :: 0 <= k < |typeIndices| ==>
       Lookup(types, typeIndices[k]).Ok? && fs[n + k] == A.DefinedFunction(Lookup(types, typeIndices[k]).value))
  }

  /** A state after the declarations: the functions above, with `n` counted
      as imported; no code entry has been seen yet. */
  predicate Declared(st: ParseState, n: nat, typeIndices: seq<u32>)
  {
    st.importedFunctionCount == n && DeclaredFunctionSeq(st.ast.functions, n, st.types, typeIndices) &&
    st.currentCodeIdx == 0 && st.functionBodies == []
  }

  /** The function index space of a module: `n` imported functions first;
      function `n + k` has the type the k-th function-section entry names,
      and, for the k-th code-section entry, that body's conversion as code. */
  predicate NumberedFunctions(fs: seq<A.Function>, n: nat, types: TypeTable, typeIndices: seq<u32>, bodies: seq<D.FunctionBody>)
  {
    |bodies| <= |typeIndices| && |fs| == n + |typeIndices| &&
    (forall j :: 0 <= j < n ==> fs[j].code.Imported?) &&
    (forall k :: 0 <= k < |typeIndices| ==>
       Lookup(types, typeIndices[k]).Ok? && fs[n + k].funcType == Lookup(types, typeIndices[k]).value) &&
    (forall k :: 0 <= k < |bodies| ==>
       ParseBodySpec(bodies[k], types).Ok? && fs[n + k].code == A.Present(ParseBodySpec(bodies[k], types).value))
  }

  /** The function index space after a type, an import and a function
      section: the imported functions come first, and the k-th
      function-section entry is function `imported_function_count + k`, with
      the type it names; no code entry has been seen yet. */
  lemma DeclaredFunctions(defs: seq<D.TypeDef>, imports: seq<D.Import>, typeIndices: seq<u32>)
    requires Fold(Step, InitialState, [D.TypeSection(defs), D.ImportSection(imports), D.FunctionSection(typeIndices)]).Ok?
    ensures var s := Fold(Step, InitialState, [D.TypeSection(defs), D.ImportSection(imports), D.FunctionSection(typeIndices)]).value;
            TypeSectionSpec(None, defs).Ok? && s.types == TypeSectionSpec(None, defs).value &&
            Declared(s, FunctionImports(imports), typeIndices)
  {
    FrontSections(defs, imports, typeIndices);
    ImportsThenFunctions(InitialState.(types := TypeSectionSpec(None, defs).value, lastSection := Some(A.ImportKind)), imports, typeIndices);
  }

  /** An import section, then a function section, on a module without
      functions: the imported functions, then the defined ones. */
  lemma ImportsThenFunctions(st: ParseState, imports: seq<D.Import>, typeIndices: seq<u32>)
    requires st.ast.functions == [] && st.importedFunctionCount == 0
    requires st.currentCodeIdx == 0 && st.functionBodies == []
    requires Fold(ImportEntry, st, imports).Ok?
    requires Fold(FunctionEntry, Fold(ImportEntry, st, imports).value.(lastSection := Some(A.FunctionKind)), typeIndices).Ok?
    ensures var s := Fold(FunctionEntry, Fold(ImportEntry, st, imports).value.(lastSection := Some(A.FunctionKind)), typeIndices).value;
            s.types == st.types && Declared(s, FunctionImports(imports), typeIndices)
  {
    ImportSectionNumbering(st, imports);
    var s2 := Fold(ImportEntry, st, imports).value.(lastSection := Some(A.FunctionKind));
    FunctionSectionAppends(s2, typeIndices);
    var s3 := Fold(FunctionEntry, s2, typeIndices).value;
    var n := FunctionImports(imports);
    assert |s2.ast.functions| == n && s3.types == s2.types;
    forall j | 0 <= j < n ensures s3.ast.functions[j].code.Imported? {
      assert s3.ast.functions[j] == s3.ast.functions[..n][j];
    }
    forall k | 0 <= k < |typeIndices|
      ensures Lookup(s3.types, typeIndices[k]).Ok? &&
              s3.ast.functions[n + k] == A.DefinedFunction(Lookup(s3.types, typeIndices[k]).value)
    {
      assert s3.ast.functions[|s2.ast.functions| + k] == A.DefinedFunction(Lookup(s2.types, typeIndices[k]).value);
    }
    assert s3 == s2.(ast := s3.ast);
    assert s2.importedFunctionCount == n && s2.currentCodeIdx == 0 && s2.functionBodies == [];
    assert DeclaredFunctionSeq(s3.ast.functions, n, s3.types, typeIndices);
  }

  /** The payload loop over a code section is the fold of `CodeEntry`
      from the state its start leaves. */
  lemma CodeSectionAsEntries(st: ParseState, bodies: seq<D.FunctionBody>)
    requires |bodies| < U32_LIMIT
    ensures Fold(Step, st, [D.CodeSectionStart(|bodies|)] + CodeEntries(bodies)) ==
            Fold(CodeEntry, st.(codeEntriesCount := |bodies|, functionBodies := [], lastSection := Some(A.CodeKind)), bodies)
  {
    StepsCodeSectionStart(st, |bodies|, CodeEntries(bodies));
    CodeEntriesAsPayloads(st.(codeEntriesCount := |bodies|, functionBodies := [], lastSection := Some(A.CodeKind)), bodies);
  }

  /** Storing the converted bodies into the declared functions: the k-th
      body becomes the code of function `n + k`, and every function keeps
      its type. */
  lemma StoresAfterDeclarations(m: A.Module, n: nat, types: TypeTable, typeIndices: seq<u32>, bodies: seq<D.FunctionBody>)
    requires DeclaredFunctionSeq(m.functions, n, types, typeIndices)
    requires Fold(StoreCode, m, ConvertAll(PendingFrom(n, bodies), types)).Ok?
    ensures NumberedFunctions(Fold(StoreCode, m, ConvertAll(PendingFrom(n, bodies), types)).value.functions,
                              n, types, typeIndices, bodies)
  {
    var cs := ConvertAll(PendingFrom(n, bodies), types);
    StoreCodesAt(m, n, cs);
    var fs := Fold(StoreCode, m, cs).value.functions;
    if 0 < |bodies| {
      var last := |bodies| - 1;
      assert cs[last].code == ParseBodySpec(bodies[last], types) && n + last < |m.functions|;
    }
    forall k | 0 <= k < |bodies|
      ensures ParseBodySpec(bodies[k], types).Ok? && fs[n + k].code == A.Present(ParseBodySpec(bodies[k], types).value)
    {
      assert cs[k].code == ParseBodySpec(bodies[k], types);
    }
    forall j | 0 <= j < n ensures fs[j].code.Imported? {
      assert fs[j] == m.functions[j];
    }
    forall k | 0 <= k < |typeIndices|
      ensures fs[n + k].funcType == Lookup(types, typeIndices[k]).value
    {
      if k < |bodies| {
        assert fs[n + k] == m.functions[n + k].(code := A.Present(cs[k].code.value));
      } else {
        assert fs[n + k] == m.functions[n + k];
      }
    }
  }

  /** A successful code section from its start leaves the module that
      storing the converted bodies produces. */
  lemma CodeSectionModule(st: ParseState, bodies: seq<D.FunctionBody>)
    requires |bodies| > 0
    requires st.currentCodeIdx == 0 && st.functionBodies == [] && st.codeEntriesCount == |bodies|
    requires Fold(CodeEntry, st, bodies).Ok?
    ensures Fold(StoreCode, st.ast, ConvertAll(PendingFrom(st.importedFunctionCount, bodies), st.types)).Ok?
    ensures Fold(CodeEntry, st, bodies).value.ast ==
            Fold(StoreCode, st.ast, ConvertAll(PendingFrom(st.importedFunctionCount, bodies), st.types)).value
  {
    CodeSectionStores(st, bodies);
  }

  /** The code section after the declarations, as the fold of `CodeEntry`:
      the k-th entry becomes the code of function `n + k`, and every function
      keeps its type. */
  lemma CodeEntriesAfterDeclarations(st: ParseState, n: nat, typeIndices: seq<u32>, bodies: seq<D.FunctionBody>)
    requires 0 < |bodies|
    requires Declared(st, n, typeIndices)
    requires Fold(CodeEntry, st.(codeEntriesCount := |bodies|, functionBodies := [], lastSection := Some(A.CodeKind)), bodies).Ok?
    ensures NumberedFunctions(Fold(CodeEntry, st.(codeEntriesCount := |bodies|, functionBodies := [], lastSection := Some(A.CodeKind)), bodies).value.ast.functions,
                              n, st.types, typeIndices, bodies)
  {
    var s4 := st.(codeEntriesCount := |bodies|, functionBodies := [], lastSection := Some(A.CodeKind));
    assert s4.ast == st.ast && s4.types == st.types && s4.importedFunctionCount == n;
    CodeSectionModule(s4, bodies);
    StoresAfterDeclarations(st.ast, n, st.types, typeIndices, bodies);
  }

  /** The code section after the declarations, as payloads. */
  lemma CodeAfterDeclarations(st: ParseState, n: nat, typeIndices: seq<u32>, bodies: seq<D.FunctionBody>)
    requires 0 < |bodies| < U32_LIMIT
    requires Declared(st, n, typeIndices)
    requires Fold(Step, st, [D.CodeSectionStart(|bodies|)] + CodeEntries(bodies)).Ok?
    ensures NumberedFunctions(Fold(Step, st, [D.CodeSectionStart(|bodies|)] + CodeEntries(bodies)).value.ast.functions,
                              n, st.types, typeIndices, bodies)
  {
    CodeSectionAsEntries(st, bodies);
    CodeEntriesAfterDeclarations(st, n, typeIndices, bodies);
  }

  /** The function index space of a module with a type, an import, a
      function and a code section: the imported functions come first;
      the k-th function-section entry is function
      `imported_function_count + k`, with the type it names, and the k-th
      code-section entry becomes its code. */
  lemma FunctionIndexSpace(defs: seq<D.TypeDef>, imports: seq<D.Import>, typeIndices: seq<u32>, bodies: seq<D.FunctionBody>)
    requires 0 < |bodies| < U32_LIMIT
    requires ParseModuleSpec([D.TypeSection(defs), D.ImportSection(imports), D.FunctionSection(typeIndices),
                              D.CodeSectionStart(|bodies|)] + CodeEntries(bodies)).Ok?
    ensures TypeSectionSpec(None, defs).Ok?
    ensures NumberedFunctions(ParseModuleSpec([D.TypeSection(defs), D.ImportSection(imports), D.FunctionSection(typeIndices),
                                               D.CodeSectionStart(|bodies|)] + CodeEntries(bodies)).value.functions,
                              FunctionImports(imports), TypeSectionSpec(None, defs).value, typeIndices, bodies)
  {
    var front := [D.TypeSection(defs), D.ImportSection(imports), D.FunctionSection(typeIndices)];
    var back := [D.CodeSectionStart(|bodies|)] + CodeEntries(bodies);
    var n := FunctionImports(imports);
    assert [D.TypeSection(defs), D.ImportSection(imports), D.FunctionSection(typeIndices),
            D.CodeSectionStart(|bodies|)] + CodeEntries(bodies) == front + back;
    FoldAppendOk(Step, InitialState, front, back);
    DeclaredFunctions(defs, imports, typeIndices);
    var s3 := Fold(Step, InitialState, front).value;
    CodeAfterDeclarations(s3, n, typeIndices, bodies);
    assert ParseModuleSpec(front + back) == Ok(Fold(Step, s3, back).value.ast);
  }

  /* ---------- the position of custom sections ---------- */

  /** The kind of section a payload records in `section_offsets`, or `None`
      for a payload that records nothing. */
  function SectionKindOf(p: D.Payload): Option<A.SectionKind>
  {
    match p
    case TypeSection(_) => Some(A.TypeKind)
    case ImportSection(_) => Some(A.ImportKind)
    case FunctionSection(_) => Some(A.FunctionKind)
    case TableSection(_) => Some(A.TableKind)
    case MemorySection(_) => Some(A.MemoryKind)
    case GlobalSection(_) => Some(A.GlobalKind)
    case ExportSection(_) => Some(A.ExportKind)
    case StartSection(_) => Some(A.StartKind)
    case ElementSection(_) => Some(A.ElementKind)
    case DataSection(_) => Some(A.DataKind)
    case CustomSection(_, _, _) => Some(A.CustomKind)
    case CodeSectionStart(_) => Some(A.CodeKind)
    case _ => None
  }

  predicate LastIs(k: Option<A.SectionKind>, s: ParseState)
  {
    s.lastSection == k
  }

  /** The subsections of the name section leave the last section alone. */
  lemma NameEntryKeepsLastSection(s: ParseState, sub: D.NameSubsection)
    requires NameEntry(s, sub).Ok?
    ensures NameEntry(s, sub).value.lastSection == s.lastSection
  {
    if sub.FunctionNames? {
      FoldPreserves(FunctionNaming, t => LastIs(s.lastSection, t), s, sub.names);
    } else if sub.LocalNames? {
      FoldPreserves(LocalNaming, t => LastIs(s.lastSection, t), s, sub.functions);
    }
  }

  /** The entries of a section with an entry loop leave the last section alone. */
  lemma EntriesKeepLastSection(st: ParseState, p: D.Payload)
    requires IsEntrySection(p) && Step(st, p).Ok? && SectionKindOf(p).Some?
    requires !p.CustomSection? || p.name == "name"
    ensures Step(st, p).value.lastSection == SectionKindOf(p)
  {
    var k := SectionKindOf(p);
    var s := st.(lastSection := k);
    if p.ImportSection? {
      FoldPreserves(ImportEntry, t => LastIs(k, t), s, p.imports);
    } else if p.FunctionSection? {
      FoldPreserves(FunctionEntry, t => LastIs(k, t), s, p.typeIndices);
    } else if p.TableSection? {
      FoldPreserves(TableEntry, t => LastIs(k, t), s, p.tables);
    } else if p.MemorySection? {
      FoldPreserves(MemoryEntry, t => LastIs(k, t), s, p.memories);
    } else if p.GlobalSection? {
      FoldPreserves(GlobalEntry, t => LastIs(k, t), s, p.globals);
    } else if p.ExportSection? {
      FoldPreserves(ExportEntry, t => LastIs(k, t), s, p.exports);
    } else if p.ElementSection? {
      FoldPreserves(ElementEntry, t => LastIs(k, t), s, p.elements);
    } else if p.DataSection? {
      FoldPreserves(DataEntry, t => LastIs(k, t), s, p.segments);
    } else {
      forall s1: ParseState, x: D.NameSubsection | LastIs(k, s1) && NameEntry(s1, x).Ok?
        ensures LastIs(k, NameEntry(s1, x).value)
      {
        NameEntryKeepsLastSection(s1, x);
      }
      FoldPreserves(NameEntry, t => LastIs(k, t), s, p.nameSubsections);
    }
  }

  /** Every successful payload that records a section leaves its kind as the
      last section seen; every other payload keeps the one before. */
  lemma StepRecordsSection(st: ParseState, p: D.Payload)
    requires Step(st, p).Ok?
    ensures Step(st, p).value.lastSection == if SectionKindOf(p).Some? then SectionKindOf(p) else st.lastSection
  {
    if IsEntrySection(p) && !(p.CustomSection? && p.name != "name") {
      EntriesKeepLastSection(st, p);
    }
  }

  /** A custom section other than "name" records the kind of the section
      right before it. */
  lemma CustomSectionAfter(st: ParseState, p: D.Payload, name: string, content: seq<byte>, subsections: seq<D.NameSubsection>)
    requires name != "name" && Step(st, p).Ok? && SectionKindOf(p).Some?
    ensures var r := Fold(Step, st, [p, D.CustomSection(name, content, subsections)]);
            r.Ok? && r.value.ast.customSections ==
              Step(st, p).value.ast.customSections + [A.RawCustomSection(name, content, SectionKindOf(p))]
  {
    StepRecordsSection(st, p);
    var s1 := Step(st, p).value;
    var c := D.CustomSection(name, content, subsections);
    assert [p, c][1..] == [c] && [c][1..] == [];
    assert Fold(Step, st, [p, c]) == Fold(Step, s1, [c]);
    assert Step(s1, c) == Ok(s1.(ast := s1.ast.(customSections := s1.ast.customSections + [A.RawCustomSection(name, content, s1.lastSection)]),
                                 lastSection := Some(A.CustomKind)));
    assert Fold(Step, s1, [c]) == Step(s1, c);
  }
}
