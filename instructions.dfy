/** `convert_instr`: one decoded operator to one AST instruction. WebAssembly
    1.0 operators are kept (their immediates converted), every operator of a
    later proposal is rejected with that proposal's name. `Lower` is the
    inverse: how the decoder writes an AST instruction. */
module Instructions {
  import opened Base
  import A = Ast
  import D = Decoded
  import opened Conversions
  import opened FuncTypes

  /** The branch-table targets as AST labels. */
  function Labels(ts: seq<u32>): (ls: seq<A.Label>)
    ensures |ls| == |ts|
    ensures forall i :: 0 <= i < |ts| ==> ls[i] == A.Label(ts[i])
  {
    seq(|ts|, i requires 0 <= i < |ts| => A.Label(ts[i]))
  }

  /** The relative depths of AST labels, as the decoder writes a branch table. */
  function Depths(ls: seq<A.Label>): (ts: seq<u32>)
    ensures |ts| == |ls|
    ensures forall i :: 0 <= i < |ls| ==> ts[i] == ls[i].depth
  {
    seq(|ls|, i requires 0 <= i < |ls| => ls[i].depth)
  }

  lemma LabelsDepths(ls: seq<A.Label>)
    ensures Labels(Depths(ls)) == ls
  {
    assert forall i :: 0 <= i < |ls| ==> Labels(Depths(ls))[i] == ls[i];
  }

  lemma DepthsLabels(ts: seq<u32>)
    ensures Depths(Labels(ts)) == ts
  {
    assert forall i :: 0 <= i < |ts| ==> Depths(Labels(ts))[i] == ts[i];
  }

  /** The type-section index a decoded operator refers to (only `call_indirect` has one). */
  function TypeIndexOf(op: D.Operator): u32
  {
    if op.CallIndirect? then op.typeIndex else 0
  }

  /** How the decoder writes an AST instruction; `typeIndex` is the index of
      a `call_indirect`'s function type, which the AST holds by value. */
  function Lower(i: A.Instr, typeIndex: u32): D.Operator
  {
    match i
    case Unreachable => D.Operator.Unreachable
    case Nop => D.Operator.Nop
    case Block(bt) => D.Operator.Block(EncodeBlockType(bt))
    case Loop(bt) => D.Operator.Loop(EncodeBlockType(bt))
    case If(bt) => D.Operator.If(EncodeBlockType(bt))
    case Else => D.Operator.Else
    case End => D.Operator.End
    case Br(l) => D.Operator.Br(l.depth)
    case BrIf(l) => D.Operator.BrIf(l.depth)
    case BrTable(ls, d) => D.Operator.BrTable(Depths(ls), d.depth)
    case Return => D.Operator.Return
    case Call(f) => D.Operator.Call(f)
    case CallIndirect(_, t) => D.Operator.CallIndirect(typeIndex, t)
    case Drop => D.Operator.Drop
    case Select => D.Operator.Select
    case Local(o, x) =>
      (match o
       case LocalGet => D.Operator.LocalGet(x)
       case LocalSet => D.Operator.LocalSet(x)
       case LocalTee => D.Operator.LocalTee(x))
    case Global(o, x) =>
      (match o
       case GlobalGet => D.Operator.GlobalGet(x)
       case GlobalSet => D.Operator.GlobalSet(x))
    case Load(o, m) => D.Operator.Load(o, EncodeMemarg(m))
    case Store(o, m) => D.Operator.Store(o, EncodeMemarg(m))
    case MemorySize(x) => D.Operator.MemorySize(x)
    case MemoryGrow(x) => D.Operator.MemoryGrow(x)
    case Const(v) =>
      (match v
       case I32(x) => D.Operator.I32Const(x)
       case I64(x) => D.Operator.I64Const(x)
       case F32(b) => D.Operator.F32Const(b)
       case F64(b) => D.Operator.F64Const(b))
    case Numeric(o) => D.Operator.Numeric(o)
  }

  /** `convert_instr`, with the type table the `call_indirect` lookup uses. */
  function ConvertInstr(op: D.Operator, types: TypeTable): (r: Result<A.Instr>)
  {
    match op
    case Unreachable => Ok(A.Instr.Unreachable)
    case Nop => Ok(A.Instr.Nop)
    case Block(bt) => var b :- ConvertBlockTy(bt); Ok(A.Instr.Block(b))
    case Loop(bt) => var b :- ConvertBlockTy(bt); Ok(A.Instr.Loop(b))
    case If(bt) => var b :- ConvertBlockTy(bt); Ok(A.Instr.If(b))
    case Else => Ok(A.Instr.Else)
    case End => Ok(A.Instr.End)
    case Try(_) => Err(Unsupported(ExceptionHandling))
    case Catch(_) => Err(Unsupported(ExceptionHandling))
    case CatchAll => Err(Unsupported(ExceptionHandling))
    case Throw(_) => Err(Unsupported(ExceptionHandling))
    case Rethrow(_) => Err(Unsupported(ExceptionHandling))
    case Delegate(_) => Err(Unsupported(ExceptionHandling))
    case Br(d) => Ok(A.Instr.Br(A.Label(d)))
    case BrIf(d) => Ok(A.Instr.BrIf(A.Label(d)))
    case BrTable(ts, d) => Ok(A.Instr.BrTable(Labels(ts), A.Label(d)))
    case Return => Ok(A.Instr.Return)
    case Call(f) => Ok(A.Instr.Call(f))
    case CallIndirect(ti, t) => var ft :- Lookup(types, ti); Ok(A.Instr.CallIndirect(ft, t))
    case ReturnCall(_) => Err(Unsupported(TailCalls))
    case ReturnCallIndirect(_, _) => Err(Unsupported(TailCalls))
    case Drop => Ok(A.Instr.Drop)
    case Select => Ok(A.Instr.Select)
    case TypedSelect(_) => Err(Unsupported(ReferenceTypes))
    case LocalGet(x) => Ok(A.Instr.Local(A.LocalOp.LocalGet, x))
    case LocalSet(x) => Ok(A.Instr.Local(A.LocalOp.LocalSet, x))
    case LocalTee(x) => Ok(A.Instr.Local(A.LocalOp.LocalTee, x))
    case GlobalGet(x) => Ok(A.Instr.Global(A.GlobalOp.GlobalGet, x))
    case GlobalSet(x) => Ok(A.Instr.Global(A.GlobalOp.GlobalSet, x))
    case Load(o, m) => var ma :- ConvertMemarg(m); Ok(A.Instr.Load(o, ma))
    case Store(o, m) => var ma :- ConvertMemarg(m); Ok(A.Instr.Store(o, ma))
    case MemorySize(mem) => if mem != 0 then Err(Unsupported(MultiMemory)) else Ok(A.Instr.MemorySize(0))
    case MemoryGrow(mem) => if mem != 0 then Err(Unsupported(MultiMemory)) else Ok(A.Instr.MemoryGrow(0))
    case I32Const(x) => Ok(A.Instr.Const(A.Val.I32(x)))
    case I64Const(x) => Ok(A.Instr.Const(A.Val.I64(x)))
    case F32Const(b) => Ok(A.Instr.Const(A.Val.F32(b)))
    case F64Const(b) => Ok(A.Instr.Const(A.Val.F64(b)))
    case RefNull(_) => Err(Unsupported(ReferenceTypes))
    case RefIsNull => Err(Unsupported(ReferenceTypes))
    case RefFunc(_) => Err(Unsupported(ReferenceTypes))
    case Numeric(o) => Ok(A.Instr.Numeric(o))
    case SignExtension(_) => Err(Unsupported(SignExtensionOps))
    case TruncSat(_) => Err(Unsupported(NontrappingFloatToInt))
    case MemoryInit(_, _) => Err(Unsupported(BulkMemoryOperations))
    case DataDrop(_) => Err(Unsupported(BulkMemoryOperations))
    case MemoryCopy(_, _) => Err(Unsupported(BulkMemoryOperations))
    case MemoryFill(_) => Err(Unsupported(BulkMemoryOperations))
    case TableInit(_, _) => Err(Unsupported(BulkMemoryOperations))
    case ElemDrop(_) => Err(Unsupported(BulkMemoryOperations))
    case TableCopy(_, _) => Err(Unsupported(BulkMemoryOperations))
    case TableFill(_) => Err(Unsupported(ReferenceTypes))
    case TableGet(_) => Err(Unsupported(ReferenceTypes))
    case TableSet(_) => Err(Unsupported(ReferenceTypes))
    case TableGrow(_) => Err(Unsupported(ReferenceTypes))
    case TableSize(_) => Err(Unsupported(ReferenceTypes))
    case Atomic(_) => Err(Unsupported(ThreadsAtomics))
    case Simd(_) => Err(Unsupported(Simd))
  }

  /** Operators of the exception-handling and tail-call proposals are
      rejected with the name of their proposal, whatever their immediates. */
  lemma ConvertInstrRejectsControl(op: D.Operator, types: TypeTable)
    ensures op.Try? || op.Catch? || op.CatchAll? || op.Throw? || op.Rethrow? || op.Delegate? ==>
              ConvertInstr(op, types) == Err(Unsupported(ExceptionHandling))
    ensures op.ReturnCall? || op.ReturnCallIndirect? ==> ConvertInstr(op, types) == Err(Unsupported(TailCalls))
  {
  }

  /** Typed `select`, the reference instructions and the table instructions
      need the reference-types proposal. */
  lemma ConvertInstrRejectsReferenceTypes(op: D.Operator, types: TypeTable)
    ensures op.TypedSelect? || op.RefNull? || op.RefIsNull? || op.RefFunc? ||
            op.TableFill? || op.TableGet? || op.TableSet? || op.TableGrow? || op.TableSize? ==>
              ConvertInstr(op, types) == Err(Unsupported(ReferenceTypes))
  {
  }

  /** Sign-extension and saturating-truncation operators are rejected with
      the name of their proposal. */
  lemma ConvertInstrRejectsNumericExtensions(op: D.Operator, types: TypeTable)
    ensures op.SignExtension? ==> ConvertInstr(op, types) == Err(Unsupported(SignExtensionOps))
    ensures op.TruncSat? ==> ConvertInstr(op, types) == Err(Unsupported(NontrappingFloatToInt))
  {
  }

  /** The bulk-memory operators are rejected with the name of their proposal. */
  lemma ConvertInstrRejectsBulkMemory(op: D.Operator, types: TypeTable)
    ensures op.MemoryInit? || op.DataDrop? || op.MemoryCopy? || op.MemoryFill? ||
            op.TableInit? || op.ElemDrop? || op.TableCopy? ==>
              ConvertInstr(op, types) == Err(Unsupported(BulkMemoryOperations))
  {
  }

  /** Atomic and SIMD operators are rejected as groups. */
  lemma ConvertInstrRejectsAtomicsAndSimd(op: D.Operator, types: TypeTable)
    ensures op.Atomic? ==> ConvertInstr(op, types) == Err(Unsupported(ThreadsAtomics))
    ensures op.Simd? ==> ConvertInstr(op, types) == Err(Unsupported(Simd))
  {
  }


  /** A 1.0 operator with a block type, a memory argument, a memory index or
      a type index converts exactly when that immediate does, and otherwise
      fails with the immediate's error. */
  lemma ConvertInstrImmediates(op: D.Operator, types: TypeTable)
    ensures op.Block? || op.Loop? || op.If? ==>
              (ConvertInstr(op, types).Ok? <==> ConvertBlockTy(op.blockTy).Ok?) &&
              (ConvertInstr(op, types).Err? ==> ConvertInstr(op, types).error == ConvertBlockTy(op.blockTy).error)
    ensures op.CallIndirect? ==>
              (ConvertInstr(op, types).Ok? <==> Lookup(types, op.typeIndex).Ok?) &&
              (ConvertInstr(op, types).Ok? ==> ConvertInstr(op, types).value == A.Instr.CallIndirect(Lookup(types, op.typeIndex).value, op.tableIndex)) &&
              (ConvertInstr(op, types).Err? ==> ConvertInstr(op, types).error == Lookup(types, op.typeIndex).error)
    ensures op.Load? || op.Store? ==>
              (ConvertInstr(op, types).Ok? <==> ConvertMemarg(op.memarg).Ok?) &&
              (ConvertInstr(op, types).Err? ==> ConvertInstr(op, types).error == ConvertMemarg(op.memarg).error)
    ensures op.MemorySize? || op.MemoryGrow? ==>
              (ConvertInstr(op, types).Ok? <==> op.mem == 0) &&
              (op.mem != 0 ==> ConvertInstr(op, types) == Err(Unsupported(MultiMemory)))
  {
  }

  /** The remaining 1.0 operators always convert. */
  lemma ConvertInstrTotal(op: D.Operator, types: TypeTable)
    ensures op.Unreachable? || op.Nop? || op.Else? || op.End? || op.Br? || op.BrIf? || op.BrTable? ||
            op.Return? || op.Call? || op.Drop? || op.Select? ||
            op.LocalGet? || op.LocalSet? || op.LocalTee? || op.GlobalGet? || op.GlobalSet? ||
            op.I32Const? || op.I64Const? || op.F32Const? || op.F64Const? || op.Numeric? ==>
              ConvertInstr(op, types).Ok?
  {
  }

  /** The operators of WebAssembly 1.0, the only ones `convert_instr` can accept. */
  predicate IsControlOperator(op: D.Operator)
  {
    op.Unreachable? || op.Nop? || op.Block? || op.Loop? || op.If? || op.Else? || op.End? ||
    op.Br? || op.BrIf? || op.BrTable? || op.Return? || op.Call? || op.CallIndirect? ||
    op.Drop? || op.Select?
  }

  predicate IsVariableOperator(op: D.Operator)
  {
    op.LocalGet? || op.LocalSet? || op.LocalTee? || op.GlobalGet? || op.GlobalSet?
  }

  predicate IsMemoryOperator(op: D.Operator)
  {
    op.Load? || op.Store? || op.MemorySize? || op.MemoryGrow?
  }

  predicate IsNumericOperator(op: D.Operator)
  {
    op.I32Const? || op.I64Const? || op.F32Const? || op.F64Const? || op.Numeric?
  }

  predicate IsMvpOperator(op: D.Operator)
  {
    IsControlOperator(op) || IsVariableOperator(op) || IsMemoryOperator(op) || IsNumericOperator(op)
  }

  /** Exactly the 1.0 operators can convert. */
  lemma ConvertInstrOnlyMvp(op: D.Operator, types: TypeTable)
    ensures ConvertInstr(op, types).Ok? ==> IsMvpOperator(op)
  {
    ConvertInstrRejectsControl(op, types);
    ConvertInstrRejectsReferenceTypes(op, types);
    ConvertInstrRejectsNumericExtensions(op, types);
    ConvertInstrRejectsBulkMemory(op, types);
    ConvertInstrRejectsAtomicsAndSimd(op, types);
  }

  lemma RoundTripControl(op: D.Operator, types: TypeTable)
    requires IsControlOperator(op) && ConvertInstr(op, types).Ok?
    ensures Lower(ConvertInstr(op, types).value, TypeIndexOf(op)) == op
  {
    if op.BrTable? {
      DepthsLabels(op.targets);
    }
  }

  lemma RoundTripVariable(op: D.Operator, types: TypeTable)
    requires IsVariableOperator(op) && ConvertInstr(op, types).Ok?
    ensures Lower(ConvertInstr(op, types).value, TypeIndexOf(op)) == op
  {
  }

  lemma RoundTripMemory(op: D.Operator, types: TypeTable)
    requires IsMemoryOperator(op) && ConvertInstr(op, types).Ok?
    ensures Lower(ConvertInstr(op, types).value, TypeIndexOf(op)) == op
  {
  }

  lemma RoundTripNumeric(op: D.Operator, types: TypeTable)
    requires IsNumericOperator(op) && ConvertInstr(op, types).Ok?
    ensures Lower(ConvertInstr(op, types).value, TypeIndexOf(op)) == op
  {
  }

  /** A converted instruction is written back as the operator it came from:
      conversion loses nothing but the type index of `call_indirect`, whose
      type the AST holds by value. */
  lemma ConvertInstrRoundTrip(op: D.Operator, types: TypeTable)
    ensures ConvertInstr(op, types).Ok? ==> Lower(ConvertInstr(op, types).value, TypeIndexOf(op)) == op
  {
    if ConvertInstr(op, types).Ok? {
      ConvertInstrOnlyMvp(op, types);
      if IsControlOperator(op) {
        RoundTripControl(op, types);
      } else if IsVariableOperator(op) {
        RoundTripVariable(op, types);
      } else if IsMemoryOperator(op) {
        RoundTripMemory(op, types);
      } else {
        RoundTripNumeric(op, types);
      }
    }
  }

  /** Every AST instruction is the conversion of its decoder form, provided a
      memory instruction names memory 0 and the type table holds the
      `call_indirect` type at the given index. */
  lemma ConvertInstrLower(i: A.Instr, typeIndex: u32, types: TypeTable)
    requires i.MemorySize? || i.MemoryGrow? ==> i.memoryIdx == 0
    requires i.CallIndirect? ==> Lookup(types, typeIndex) == Ok(i.funcType)
    ensures ConvertInstr(Lower(i, typeIndex), types) == Ok(i)
  {
    if i.Block? || i.Loop? || i.If? {
      LowerBlock(i, typeIndex, types);
    } else if i.Br? || i.BrIf? || i.BrTable? || i.Return? || i.Call? || i.CallIndirect? {
      LowerBranch(i, typeIndex, types);
    } else if i.Local? || i.Global? {
      LowerVariable(i, typeIndex, types);
    } else if i.Load? || i.Store? || i.MemorySize? || i.MemoryGrow? {
      LowerMemory(i, typeIndex, types);
    } else if i.Const? {
      LowerConst(i, typeIndex, types);
    } else {
      LowerPlain(i, typeIndex, types);
    }
  }

  lemma LowerBlock(i: A.Instr, typeIndex: u32, types: TypeTable)
    requires i.Block? || i.Loop? || i.If?
    ensures ConvertInstr(Lower(i, typeIndex), types) == Ok(i)
  {
    ConvertBlockTyEncodeBlockType(i.blockType);
  }

  lemma LowerBranch(i: A.Instr, typeIndex: u32, types: TypeTable)
    requires i.Br? || i.BrIf? || i.BrTable? || i.Return? || i.Call? || i.CallIndirect?
    requires i.CallIndirect? ==> Lookup(types, typeIndex) == Ok(i.funcType)
    ensures ConvertInstr(Lower(i, typeIndex), types) == Ok(i)
  {
    if i.BrTable? {
      LabelsDepths(i.table);
    }
  }

  lemma LowerMemory(i: A.Instr, typeIndex: u32, types: TypeTable)
    requires i.Load? || i.Store? || i.MemorySize? || i.MemoryGrow?
    requires i.MemorySize? || i.MemoryGrow? ==> i.memoryIdx == 0
    ensures ConvertInstr(Lower(i, typeIndex), types) == Ok(i)
  {
  }

  lemma LowerPlain(i: A.Instr, typeIndex: u32, types: TypeTable)
    requires i.Unreachable? || i.Nop? || i.Else? || i.End? || i.Drop? || i.Select? || i.Numeric?
    ensures ConvertInstr(Lower(i, typeIndex), types) == Ok(i)
  {
  }


  lemma LowerVariable(i: A.Instr, typeIndex: u32, types: TypeTable)
    requires i.Local? || i.Global?
    ensures ConvertInstr(Lower(i, typeIndex), types) == Ok(i)
  {
  }

  lemma LowerConst(i: A.Instr, typeIndex: u32, types: TypeTable)
    requires i.Const?
    ensures ConvertInstr(Lower(i, typeIndex), types) == Ok(i)
  {
  }

  /** `convert_instr` applied to a body's operators in order, stopping at the
      first operator that does not convert (the body loop of `parse_body`). */
  function ConvertOps(ops: seq<D.Operator>, types: TypeTable): (r: Result<seq<A.Instr>>)
    ensures r.Ok? <==> forall i :: 0 <= i < |ops| ==> ConvertInstr(ops[i], types).Ok?
    ensures r.Ok? ==> |r.value| == |ops| &&
                      forall i :: 0 <= i < |ops| ==> Ok(r.value[i]) == ConvertInstr(ops[i], types)
    ensures r.Err? ==> exists k :: 0 <= k < |ops| && ConvertInstr(ops[k], types) == Err(r.error) &&
                                   forall j :: 0 <= j < k ==> ConvertInstr(ops[j], types).Ok?
    decreases |ops|
  {
    if ops == [] then Ok([])
    else
      var n := |ops| - 1;
      assert forall i :: 0 <= i < n ==> ops[..n][i] == ops[i];
      match ConvertOps(ops[..n], types)
      case Err(e) =>
        var k :| 0 <= k < n && ConvertInstr(ops[..n][k], types) == Err(e) &&
                 forall j :: 0 <= j < k ==> ConvertInstr(ops[..n][j], types).Ok?;
        assert ConvertInstr(ops[k], types) == Err(e);
        Err(e)
      case Ok(init) =>
        match ConvertInstr(ops[n], types)
        case Err(e) => Err(e)
        case Ok(last) =>
          assert forall i :: 0 <= i < n ==> (init + [last])[i] == init[i];
          Ok(init + [last])
  }

  /** The error of the operator sequence is that of its first operator that
      does not convert. */
  lemma ConvertOpsFirstError(ops: seq<D.Operator>, i: nat, types: TypeTable)
    requires i < |ops|
    requires forall j :: 0 <= j < i ==> ConvertInstr(ops[j], types).Ok?
    requires ConvertInstr(ops[i], types).Err?
    ensures ConvertOps(ops, types) == Err(ConvertInstr(ops[i], types).error)
  {
    var r := ConvertOps(ops, types);
    assert r.Err?;
    var k :| 0 <= k < |ops| && ConvertInstr(ops[k], types) == Err(r.error) &&
             forall j :: 0 <= j < k ==> ConvertInstr(ops[j], types).Ok?;
    assert k == i;
  }

  /** The branch-table loop of `convert_instr`: each target becomes a label, in order. */
  method BrTableTargets(targets: seq<u32>) returns (labels: seq<A.Label>)
    ensures labels == Labels(targets)
  {
    labels := [];
    var i := 0;
    while i < |targets|
      invariant 0 <= i <= |targets|
      invariant |labels| == i
      invariant forall j :: 0 <= j < i ==> labels[j] == A.Label(targets[j])
    {
      labels := labels + [A.Label(targets[i])];
      i := i + 1;
    }
  }

  /** `convert_instr` against the `Types` object: the branch table is built by
      its loop, and `call_indirect` looks its type up with `Types::get`. */
  method ConvertOperator(op: D.Operator, types: Types) returns (r: Result<A.Instr>)
    ensures r == ConvertInstr(op, types.table)
  {
    match op
    case BrTable(ts, d) =>
      var labels := BrTableTargets(ts);
      r := Ok(A.Instr.BrTable(labels, A.Label(d)));
    case CallIndirect(ti, t) =>
      var ft :- types.Get(ti);
      r := Ok(A.Instr.CallIndirect(ft, t));
    case _ =>
      r := ConvertInstr(op, types.table);
  }
}
