/** The high-level AST the converter produces: value and block types,
    limits, memory arguments, instructions, function bodies and the module
    with its functions, globals, tables and memories. Only the fields the
    converter sets are modelled. */
module Ast {
  import opened Base

  /** Value types of WebAssembly 1.0 (section 2.3.1). */
  datatype ValType = I32 | I64 | F32 | F64

  /** The result type of a block, loop or if: empty or a single value type. */
  datatype BlockType = BlockType(result: Option<ValType>)

  datatype FunctionType = FunctionType(params: seq<ValType>, results: seq<ValType>)

  datatype Mutability = Const | Mut

  datatype GlobalType = GlobalType(valType: ValType, mutability: Mutability)

  datatype Limits = Limits(initialSize: u32, maxSize: Option<u32>)

  datatype MemoryType = MemoryType(limits: Limits)

  /** The only element type of WebAssembly 1.0 tables. */
  datatype ElemType = Anyfunc

  datatype TableType = TableType(elemType: ElemType, limits: Limits)

  /** A memory-access immediate: alignment exponent and a 32-bit static offset. */
  datatype Memarg = Memarg(alignmentExp: u8, offset: u32)

  /** A branch target, as a relative block depth. */
  datatype Label = Label(depth: u32)

  /** Constants; floats are kept as their IEEE 754 bit patterns. */
  datatype Val = I32(i32Value: i32) | I64(i64Value: i64) | F32(f32Bits: u32) | F64(f64Bits: u64)

  datatype LocalOp = LocalGet | LocalSet | LocalTee

  datatype GlobalOp = GlobalGet | GlobalSet

  datatype LoadOp =
    | I32Load | I64Load | F32Load | F64Load
    | I32Load8S | I32Load8U | I32Load16S | I32Load16U
    | I64Load8S | I64Load8U | I64Load16S | I64Load16U | I64Load32S | I64Load32U

  datatype StoreOp =
    | I32Store | I64Store | F32Store | F64Store
    | I32Store8 | I32Store16 | I64Store8 | I64Store16 | I64Store32

  /** The numeric instructions of WebAssembly 1.0, one name per opcode. */
  datatype NumericOp =
    | I32Eqz | I32Eq | I32Ne | I32LtS | I32LtU | I32GtS | I32GtU | I32LeS | I32LeU | I32GeS | I32GeU
    | I64Eqz | I64Eq | I64Ne | I64LtS | I64LtU | I64GtS | I64GtU | I64LeS | I64LeU | I64GeS | I64GeU
    | F32Eq | F32Ne | F32Lt | F32Gt | F32Le | F32Ge | F64Eq | F64Ne | F64Lt | F64Gt | F64Le | F64Ge
    | I32Clz | I32Ctz | I32Popcnt | I32Add | I32Sub | I32Mul | I32DivS | I32DivU | I32RemS | I32RemU
    | I32And | I32Or | I32Xor | I32Shl | I32ShrS | I32ShrU | I32Rotl | I32Rotr | I64Clz | I64Ctz
    | I64Popcnt | I64Add | I64Sub | I64Mul | I64DivS | I64DivU | I64RemS | I64RemU | I64And | I64Or
    | I64Xor | I64Shl | I64ShrS | I64ShrU | I64Rotl | I64Rotr | F32Abs | F32Neg | F32Ceil | F32Floor
    | F32Trunc | F32Nearest | F32Sqrt | F32Add | F32Sub | F32Mul | F32Div | F32Min | F32Max
    | F32Copysign | F64Abs | F64Neg | F64Ceil | F64Floor | F64Trunc | F64Nearest | F64Sqrt | F64Add
    | F64Sub | F64Mul | F64Div | F64Min | F64Max | F64Copysign | I32WrapI64 | I32TruncF32S
    | I32TruncF32U | I32TruncF64S | I32TruncF64U | I64ExtendI32S | I64ExtendI32U | I64TruncF32S
    | I64TruncF32U | I64TruncF64S | I64TruncF64U | F32ConvertI32S | F32ConvertI32U | F32ConvertI64S
    | F32ConvertI64U | F32DemoteF64 | F64ConvertI32S | F64ConvertI32U | F64ConvertI64S
    | F64ConvertI64U | F64PromoteF32 | I32ReinterpretF32 | I64ReinterpretF64 | F32ReinterpretI32
    | F64ReinterpretI64

  datatype Instr =
    | Unreachable
    | Nop
    | Block(blockType: BlockType)
    | Loop(blockType: BlockType)
    | If(blockType: BlockType)
    | Else
    | End
    | Br(target: Label)
    | BrIf(target: Label)
    | BrTable(table: seq<Label>, default: Label)
    | Return
    | Call(func: u32)
    | CallIndirect(funcType: FunctionType, tableIdx: u32)
    | Drop
    | Select
    | Local(localOp: LocalOp, localIdx: u32)
    | Global(globalOp: GlobalOp, globalIdx: u32)
    | Load(loadOp: LoadOp, memarg: Memarg)
    | Store(storeOp: StoreOp, memarg: Memarg)
    | MemorySize(memoryIdx: u32)
    | MemoryGrow(memoryIdx: u32)
    | Const(val: Val)
    | Numeric(numericOp: NumericOp)

  /** A declared local variable of a function body. */
  datatype LocalVar = LocalVar(valType: ValType)

  datatype Code = Code(locals: seq<LocalVar>, body: seq<Instr>)

  /** The module and field name an entity is imported from. */
  datatype ImportName = ImportName(importModule: string, importName: string)

  datatype ImportOrPresent<+T> = Imported(origin: ImportName) | Present(value: T)

  datatype Function = Function(funcType: FunctionType, code: ImportOrPresent<Code>, exports: seq<string>, name: Option<string>)

  datatype Global = Global(globalType: GlobalType, init: ImportOrPresent<seq<Instr>>, exports: seq<string>)

  datatype Element = Element(offset: seq<Instr>, functions: seq<u32>)

  datatype Table = Table(tableType: TableType, importedFrom: Option<ImportName>, elements: seq<Element>, exports: seq<string>)

  datatype Data = Data(offset: seq<Instr>, bytes: seq<byte>)

  datatype Memory = Memory(memoryType: MemoryType, importedFrom: Option<ImportName>, data: seq<Data>, exports: seq<string>)

  /** The kind of a section, as `std::mem::discriminant` tells the variants
      of `Section` apart: a name section and any other custom section are the
      same kind. */
  datatype SectionKind =
    | TypeKind | ImportKind | FunctionKind | TableKind | MemoryKind | GlobalKind
    | ExportKind | StartKind | ElementKind | DataKind | CustomKind | CodeKind

  /** A custom section other than `name`, kept as bytes, with the kind of the
      section it follows (`None` when no section came before it). */
  datatype RawCustomSection = RawCustomSection(name: string, content: seq<byte>, after: Option<SectionKind>)

  datatype Module = Module(
    name: Option<string>,
    functions: seq<Function>,
    globals: seq<Global>,
    tables: seq<Table>,
    memories: seq<Memory>,
    start: Option<u32>,
    customSections: seq<RawCustomSection>)

  /** `Module::default()`: no name, no entities, no start function. */
  const EmptyModule: Module := Module(None, [], [], [], [], None, [])

  /** A function without code yet, for a function-section entry whose body
      the code section fills in later. */
  function DefinedFunction(ty: FunctionType): Function
  {
    Function(ty, Present(Code([], [])), [], None)
  }
}
