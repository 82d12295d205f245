/** What the external `wasmparser` decoder hands to the converter: type codes,
    immediates, operators, function bodies and the payloads of a module, all
    already decoded from bytes. Byte-level decoding and its errors are not
    modelled; these values are the converter's inputs. */
module Decoded {
  import opened Base
  import Ast

  /** A type code as the decoder reads it, including the codes that are not
      value types (the function-type form and the empty block type). */
  datatype Type = I32 | I64 | F32 | F64 | V128 | FuncRef | ExternRef | ExnRef | Func | EmptyBlockType

  /** The type codes `convert_ty` classifies; on the other two it panics. */
  predicate IsValueTypeCode(t: Type)
  {
    !t.Func? && !t.EmptyBlockType?
  }

  /** The type codes `convert_elem_ty` classifies (reference types); on the others it panics. */
  predicate IsRefTypeCode(t: Type)
  {
    t.FuncRef? || t.ExternRef? || t.ExnRef?
  }

  /** Type codes in positions where the decoder only delivers value-type codes
      (parameters, results, locals, global content types). */
  type ValueTypeCode = t: Type | IsValueTypeCode(t) witness I32

  /** Type codes in the element-type position of tables and element segments. */
  type RefTypeCode = t: Type | IsRefTypeCode(t) witness FuncRef

  /** Type codes in a block-type position: any code but the function form. */
  type BlockTypeCode = t: Type | !t.Func? witness EmptyBlockType

  /** A block type: a single (possibly empty) result type, or a type-section index. */
  datatype TypeOrFuncType = TypeOf(ty: BlockTypeCode) | FuncTypeIdx(index: u32)

  datatype FuncType = FuncType(params: seq<ValueTypeCode>, results: seq<ValueTypeCode>)

  datatype GlobalType = GlobalType(contentType: ValueTypeCode, mutable: bool)

  datatype TableType = TableType(elementType: RefTypeCode, initial: u32, maximum: Option<u32>)

  datatype MemoryType = MemoryType(memory64: bool, initial: u64, maximum: Option<u64>)

  /** The decoder guarantees that the limits of a 32-bit memory fit in 32 bits;
      `convert_memory_ty` relies on it with `expect`. */
  predicate LimitsFitIfMemory32(m: MemoryType)
  {
    m.memory64 || (m.initial < U32_LIMIT && (m.maximum.Some? ==> m.maximum.value < U32_LIMIT))
  }

  type DecodedMemoryType = m: MemoryType | LimitsFitIfMemory32(m) witness MemoryType(false, 0, None)

  /** A memory-access immediate with the decoder's 64-bit offset and memory index. */
  datatype MemoryImmediate = MemoryImmediate(align: u8, offset: u64, memory: u32)

  datatype SignExtensionOp = I32Extend8S | I32Extend16S | I64Extend8S | I64Extend16S | I64Extend32S

  datatype TruncSatOp =
    | I32TruncSatF32S | I32TruncSatF32U | I32TruncSatF64S | I32TruncSatF64U
    | I64TruncSatF32S | I64TruncSatF32U | I64TruncSatF64S | I64TruncSatF64U

  /** The decoder's operators. The 14 loads, 9 stores and 123 numeric operators
      carry the AST's name for the opcode (the converter maps them name for
      name); the threads/atomics and SIMD operators, which the converter
      rejects as groups, carry only an opaque opcode. */
  datatype Operator =
    | Unreachable
    | Nop
    | Block(blockTy: TypeOrFuncType)
    | Loop(blockTy: TypeOrFuncType)
    | If(blockTy: TypeOrFuncType)
    | Else
    | End
    | Try(blockTy: TypeOrFuncType)
    | Catch(tagIndex: u32)
    | CatchAll
    | Throw(tagIndex: u32)
    | Rethrow(relativeDepth: u32)
    | Delegate(relativeDepth: u32)
    | Br(relativeDepth: u32)
    | BrIf(relativeDepth: u32)
    | BrTable(targets: seq<u32>, default: u32)
    | Return
    | Call(functionIndex: u32)
    | CallIndirect(typeIndex: u32, tableIndex: u32)
    | ReturnCall(functionIndex: u32)
    | ReturnCallIndirect(typeIndex: u32, tableIndex: u32)
    | Drop
    | Select
    | TypedSelect(selectTy: Type)
    | LocalGet(localIndex: u32)
    | LocalSet(localIndex: u32)
    | LocalTee(localIndex: u32)
    | GlobalGet(globalIndex: u32)
    | GlobalSet(globalIndex: u32)
    | Load(loadOp: Ast.LoadOp, memarg: MemoryImmediate)
    | Store(storeOp: Ast.StoreOp, memarg: MemoryImmediate)
    | MemorySize(mem: u32)
    | MemoryGrow(mem: u32)
    | I32Const(i32Value: i32)
    | I64Const(i64Value: i64)
    | F32Const(f32Bits: u32)
    | F64Const(f64Bits: u64)
    | RefNull(refTy: Type)
    | RefIsNull
    | RefFunc(functionIndex: u32)
    | Numeric(numericOp: Ast.NumericOp)
    | SignExtension(signExtensionOp: SignExtensionOp)
    | TruncSat(truncSatOp: TruncSatOp)
    | MemoryInit(segment: u32, mem: u32)
    | DataDrop(segment: u32)
    | MemoryCopy(src: u32, dst: u32)
    | MemoryFill(mem: u32)
    | TableInit(segment: u32, table: u32)
    | ElemDrop(segment: u32)
    | TableCopy(dstTable: u32, srcTable: u32)
    | TableFill(table: u32)
    | TableGet(table: u32)
    | TableSet(table: u32)
    | TableGrow(table: u32)
    | TableSize(table: u32)
    | Atomic(atomicOpcode: nat)
    | Simd(simdOpcode: nat)

  /** One run-length entry of a body's local declarations: `count` locals of type `ty`. */
  datatype LocalDeclEntry = LocalDecl(count: u32, ty: Type)

  /** The declarations `parse_body` can be given: `convert_ty` runs once per
      declared local, so a nonzero count needs a code it classifies, while a
      declaration with count 0 may carry any code, since it is never converted. */
  type LocalDecl = d: LocalDeclEntry | d.count > 0 ==> IsValueTypeCode(d.ty) witness LocalDecl(0, I32)

  datatype FunctionBody = FunctionBody(locals: seq<LocalDecl>, operators: seq<Operator>)

  /** An entry of the type section: only function types are WebAssembly 1.0. */
  datatype TypeDef = FuncDef(funcType: FuncType) | InstanceDef | ModuleDef

  datatype ImportType =
    | FunctionImport(typeIndex: u32)
    | GlobalImport(globalType: GlobalType)
    | TableImport(tableType: TableType)
    | MemoryImport(memoryType: DecodedMemoryType)
    | TagImport
    | ModuleImport
    | InstanceImport

  /** An import; `field` is absent only in the module-linking proposal's form. */
  datatype Import = Import(importModule: string, field: Option<string>, ty: ImportType)

  datatype ExternalKind = FunctionKind | TableKind | MemoryKind | GlobalKind | TagKind | TypeKind | ModuleKind | InstanceKind

  datatype Export = Export(field: string, kind: ExternalKind, index: u32)

  datatype GlobalDef = GlobalDef(ty: GlobalType, initExpr: seq<Operator>)

  datatype ElementItem = FuncItem(funcIndex: u32) | ExprItem

  datatype ElementKind = ActiveElements(tableIndex: u32, initExpr: seq<Operator>) | PassiveElements | DeclaredElements

  datatype ElementDef = ElementDef(ty: RefTypeCode, items: seq<ElementItem>, kind: ElementKind)

  datatype DataKind = ActiveData(memoryIndex: u32, initExpr: seq<Operator>) | PassiveData

  datatype DataDef = DataDef(kind: DataKind, bytes: seq<byte>)

  datatype Naming = Naming(index: u32, name: string)

  datatype IndirectNaming = IndirectNaming(indirectIndex: u32, names: seq<Naming>)

  /** A subsection of the custom "name" section, as the name-section reader decodes it. */
  datatype NameSubsection =
    | ModuleName(name: string)
    | FunctionNames(names: seq<Naming>)
    | LocalNames(functions: seq<IndirectNaming>)
    | OtherNames

  /** The decoder's payload stream. A custom section carries its raw content
      and, for the section called "name", the subsections decoded from it. */
  datatype Payload =
    | Version
    | TypeSection(types: seq<TypeDef>)
    | ImportSection(imports: seq<Import>)
    | AliasSection
    | InstanceSection
    | FunctionSection(typeIndices: seq<u32>)
    | TableSection(tables: seq<TableType>)
    | MemorySection(memories: seq<DecodedMemoryType>)
    | TagSection
    | GlobalSection(globals: seq<GlobalDef>)
    | ExportSection(exports: seq<Export>)
    | StartSection(func: u32)
    | ElementSection(elements: seq<ElementDef>)
    | DataCountSection
    | DataSection(segments: seq<DataDef>)
    | CustomSection(name: string, content: seq<byte>, nameSubsections: seq<NameSubsection>)
    | CodeSectionStart(count: u32)
    | CodeSectionEntry(body: FunctionBody)
    | ModuleSectionStart
    | ModuleSectionEntry
    | UnknownSection
    | End
}
