/** `convert_ty`, `convert_block_ty`, `convert_func_ty`, `convert_global_ty`,
    `convert_memarg`, `convert_memory_ty`, `convert_table_ty` and
    `convert_elem_ty`: total classifiers from the decoder's types to the AST's,
    or to the WebAssembly extension the input needs. `convert_ty`,
    `convert_block_ty`, `convert_func_ty`, `convert_memarg` and
    `convert_table_ty` come with the inverse encoding of the AST value back
    into decoder form and a round trip connecting the two; the other three
    state which fields they keep. */
module Conversions {
  import opened Base
  import A = Ast
  import D = Decoded

  /** The value types of WebAssembly 1.0 (section 5.3.1): the only ones the AST has. */
  predicate IsMvpValueType(t: D.Type)
  {
    t.I32? || t.I64? || t.F32? || t.F64?
  }

  /** How the decoder writes an AST value type. */
  function EncodeValType(v: A.ValType): (t: D.ValueTypeCode)
    ensures IsMvpValueType(t)
  {
    match v
    case I32 => D.Type.I32
    case I64 => D.Type.I64
    case F32 => D.Type.F32
    case F64 => D.Type.F64
  }

  /** `convert_ty`: one-to-one on the four 1.0 value types; every other value
      type code names the extension that introduced it. */
  function ConvertTy(t: D.Type): (r: Result<A.ValType>)
    requires D.IsValueTypeCode(t)
    ensures r.Ok? <==> IsMvpValueType(t)
    ensures r.Ok? ==> EncodeValType(r.value) == t
    ensures t.V128? ==> r == Err(Unsupported(Simd))
    ensures t.FuncRef? || t.ExternRef? ==> r == Err(Unsupported(ReferenceTypes))
    ensures t.ExnRef? ==> r == Err(Unsupported(ExceptionHandling))
  {
    match t
    case I32 => Ok(A.ValType.I32)
    case I64 => Ok(A.ValType.I64)
    case F32 => Ok(A.ValType.F32)
    case F64 => Ok(A.ValType.F64)
    case V128 => Err(Unsupported(Simd))
    case FuncRef => Err(Unsupported(ReferenceTypes))
    case ExternRef => Err(Unsupported(ReferenceTypes))
    case ExnRef => Err(Unsupported(ExceptionHandling))
  }

  lemma ConvertTyEncodeValType(v: A.ValType)
    ensures ConvertTy(EncodeValType(v)) == Ok(v)
  {
  }

  /** How the decoder writes an AST block type. */
  function EncodeBlockType(b: A.BlockType): D.TypeOrFuncType
  {
    match b.result
    case None => D.TypeOf(D.EmptyBlockType)
    case Some(v) => D.TypeOf(EncodeValType(v))
  }

  /** `convert_block_ty`: the empty block type is `BlockType(None)`, a value
      type is converted with `convert_ty`, and a type-indexed block type needs
      the multi-value extension. */
  function ConvertBlockTy(b: D.TypeOrFuncType): (r: Result<A.BlockType>)
    ensures b == D.TypeOf(D.EmptyBlockType) ==> r == Ok(A.BlockType(None))
    ensures b.TypeOf? && !b.ty.EmptyBlockType? ==>
              match ConvertTy(b.ty)
              case Ok(v) => r == Ok(A.BlockType(Some(v)))
              case Err(e) => r == Err(e)
    ensures b.FuncTypeIdx? ==> r == Err(Unsupported(MultiValue))
    ensures r.Ok? ==> EncodeBlockType(r.value) == b
  {
    match b
    case TypeOf(t) =>
      if t.EmptyBlockType? then Ok(A.BlockType(None))
      else
        var v :- ConvertTy(t);
        Ok(A.BlockType(Some(v)))
    case FuncTypeIdx(_) => Err(Unsupported(MultiValue))
  }

  lemma ConvertBlockTyEncodeBlockType(b: A.BlockType)
    ensures ConvertBlockTy(EncodeBlockType(b)) == Ok(b)
  {
  }

  function EncodeValTypes(vs: seq<A.ValType>): (ts: seq<D.ValueTypeCode>)
    ensures |ts| == |vs|
    ensures forall i :: 0 <= i < |vs| ==> ts[i] == EncodeValType(vs[i])
  {
    seq(|vs|, i requires 0 <= i < |vs| => EncodeValType(vs[i]))
  }

  /** The inner `convert_tys` of `convert_func_ty`: a `map`/`collect` that
      stops at the first type `convert_ty` rejects. */
  function ConvertTys(ts: seq<D.ValueTypeCode>): (r: Result<seq<A.ValType>>)
    ensures r.Ok? <==> forall i :: 0 <= i < |ts| ==> IsMvpValueType(ts[i])
    ensures r.Ok? ==> EncodeValTypes(r.value) == ts
    ensures r.Err? ==>
              exists k :: 0 <= k < |ts| && ConvertTy(ts[k]) == Err(r.error) &&
                          forall j :: 0 <= j < k ==> IsMvpValueType(ts[j])
  {
    if ts == [] then Ok([])
    else
      var v :- ConvertTy(ts[0]);
      var rest :- ConvertTys(ts[1..]);
      assert forall i :: 1 <= i < |ts| ==> ts[i] == ts[1..][i - 1];
      assert EncodeValTypes([v] + rest) == ts by {
        assert forall i :: 1 <= i < |ts| ==> EncodeValTypes([v] + rest)[i] == EncodeValTypes(rest)[i - 1];
      }
      Ok([v] + rest)
  }

  lemma {:induction false} ConvertTysEncodeValTypes(vs: seq<A.ValType>)
    ensures ConvertTys(EncodeValTypes(vs)) == Ok(vs)
  {
    var r := ConvertTys(EncodeValTypes(vs));
    assert forall i :: 0 <= i < |vs| ==> IsMvpValueType(EncodeValTypes(vs)[i]);
    assert r.Ok?;
    assert EncodeValTypes(r.value) == EncodeValTypes(vs);
    EncodeValTypesInjective(r.value, vs);
  }

  lemma EncodeValTypesInjective(xs: seq<A.ValType>, ys: seq<A.ValType>)
    requires EncodeValTypes(xs) == EncodeValTypes(ys)
    ensures xs == ys
  {
    assert |xs| == |ys|;
    forall i | 0 <= i < |xs| ensures xs[i] == ys[i] {
      assert EncodeValTypes(xs)[i] == EncodeValTypes(ys)[i];
    }
  }

  function EncodeFuncType(f: A.FunctionType): D.FuncType
  {
    D.FuncType(EncodeValTypes(f.params), EncodeValTypes(f.results))
  }

  /** `convert_func_ty`: parameters first, then results, each with `convert_tys`. */
  function ConvertFuncTy(f: D.FuncType): (r: Result<A.FunctionType>)
    ensures r.Ok? <==> (forall i :: 0 <= i < |f.params| ==> IsMvpValueType(f.params[i])) &&
                       (forall i :: 0 <= i < |f.results| ==> IsMvpValueType(f.results[i]))
    ensures r.Ok? ==> EncodeFuncType(r.value) == f
    ensures ConvertTys(f.params).Err? ==> r == Err(ConvertTys(f.params).error)
    ensures ConvertTys(f.params).Ok? && ConvertTys(f.results).Err? ==> r == Err(ConvertTys(f.results).error)
  {
    var params :- ConvertTys(f.params);
    var results :- ConvertTys(f.results);
    Ok(A.FunctionType(params, results))
  }

  lemma ConvertFuncTyEncodeFuncType(f: A.FunctionType)
    ensures ConvertFuncTy(EncodeFuncType(f)) == Ok(f)
  {
    ConvertTysEncodeValTypes(f.params);
    ConvertTysEncodeValTypes(f.results);
  }

  /** `convert_global_ty`: the content type with `convert_ty`, the mutability flag as is. */
  function ConvertGlobalTy(g: D.GlobalType): (r: Result<A.GlobalType>)
    ensures r.Ok? <==> IsMvpValueType(g.contentType)
    ensures r.Ok? ==> EncodeValType(r.value.valType) == g.contentType &&
                      (r.value.mutability == A.Mutability.Mut <==> g.mutable)
    ensures r.Err? ==> r.error == ConvertTy(g.contentType).error
  {
    var v :- ConvertTy(g.contentType);
    Ok(A.GlobalType(v, if g.mutable then A.Mutability.Mut else A.Mutability.Const))
  }

  /** `convert_memarg`: a static offset beyond 32 bits needs memory64 (checked
      first); a memory index other than 0 needs multi-memory; otherwise the
      alignment exponent and offset are kept. */
  function ConvertMemarg(m: D.MemoryImmediate): (r: Result<A.Memarg>)
    ensures r.Ok? <==> m.offset < U32_LIMIT && m.memory == 0
    ensures m.offset >= U32_LIMIT ==> r == Err(Unsupported(Memory64))
    ensures m.offset < U32_LIMIT && m.memory != 0 ==> r == Err(Unsupported(MultiMemory))
    ensures r.Ok? ==> r.value.alignmentExp == m.align && r.value.offset == m.offset
  {
    if m.offset >= U32_LIMIT then Err(Unsupported(Memory64))
    else if m.memory != 0 then Err(Unsupported(MultiMemory))
    else Ok(A.Memarg(m.align, m.offset))
  }

  /** How the decoder writes an AST memory argument (memory 0). */
  function EncodeMemarg(m: A.Memarg): (d: D.MemoryImmediate)
    ensures ConvertMemarg(d) == Ok(m)
  {
    D.MemoryImmediate(m.alignmentExp, m.offset, 0)
  }

  /** `convert_memory_ty`: 64-bit memories are unsupported; a 32-bit memory's
      limits are kept (the decoder guarantees that they fit in 32 bits). */
  function ConvertMemoryTy(m: D.MemoryType): (r: Result<A.MemoryType>)
    requires D.LimitsFitIfMemory32(m)
    ensures r.Ok? <==> !m.memory64
    ensures m.memory64 ==> r == Err(Unsupported(Memory64))
    ensures r.Ok? ==> r.value.limits.initialSize == m.initial &&
                      (r.value.limits.maxSize.Some? <==> m.maximum.Some?) &&
                      (m.maximum.Some? ==> r.value.limits.maxSize.value == m.maximum.value)
  {
    if m.memory64 then Err(Unsupported(Memory64))
    else
      Ok(A.MemoryType(A.Limits(
        m.initial,
        match m.maximum
        case None => None
        case Some(max) => Some(max as u32))))
  }

  /** `convert_elem_ty`: funcref is the 1.0 element type; the other reference
      types name their extension. */
  function ConvertElemTy(t: D.Type): (r: Result<A.ElemType>)
    requires D.IsRefTypeCode(t)
    ensures r.Ok? <==> t.FuncRef?
    ensures t.ExternRef? ==> r == Err(Unsupported(ReferenceTypes))
    ensures t.ExnRef? ==> r == Err(Unsupported(ExceptionHandling))
  {
    match t
    case FuncRef => Ok(A.Anyfunc)
    case ExternRef => Err(Unsupported(ReferenceTypes))
    case ExnRef => Err(Unsupported(ExceptionHandling))
  }

  /** `convert_table_ty`: the element type with `convert_elem_ty`, the limits as is. */
  function ConvertTableTy(t: D.TableType): (r: Result<A.TableType>)
    ensures r.Ok? <==> t.elementType.FuncRef?
    ensures r.Err? ==> r.error == ConvertElemTy(t.elementType).error
    ensures r.Ok? ==> r.value.limits == A.Limits(t.initial, t.maximum)
  {
    var e :- ConvertElemTy(t.elementType);
    Ok(A.TableType(e, A.Limits(t.initial, t.maximum)))
  }

  /** How the decoder writes an AST table type. */
  function EncodeTableType(t: A.TableType): D.TableType
  {
    D.TableType(D.FuncRef, t.limits.initialSize, t.limits.maxSize)
  }

  lemma ConvertTableTyEncodeTableType(t: A.TableType)
    ensures ConvertTableTy(EncodeTableType(t)) == Ok(t)
  {
    assert ConvertElemTy(D.FuncRef) == Ok(A.Anyfunc);
    var r := ConvertTableTy(EncodeTableType(t));
    assert r.Ok?;
    assert r.value.limits == t.limits;
    assert t.elemType.Anyfunc?;
    assert r.value.elemType.Anyfunc?;
  }
}
