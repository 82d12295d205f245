/** `parse_body`: a decoded function body becomes AST code. The run-length
    local declarations are expanded one local at a time, then the operators
    are converted one at a time; the first failure ends the body. */
module Bodies {
  import opened Base
  import A = Ast
  import D = Decoded
  import opened Conversions
  import opened FuncTypes
  import opened Instructions

  function Repeat<T>(n: nat, x: T): (r: seq<T>)
    ensures |r| == n
    ensures forall i :: 0 <= i < n ==> r[i] == x
  {
    seq(n, _ => x)
  }

  /** The number of locals a list of declarations declares. */
  function SumCounts(decls: seq<D.LocalDecl>): nat
  {
    if decls == [] then 0
    else SumCounts(decls[..|decls| - 1]) + decls[|decls| - 1].count
  }

  /** The run-length expansion of the declarations: each declaration's type
      code, repeated as often as it says. */
  function LocalTypes(decls: seq<D.LocalDecl>): (ts: seq<D.ValueTypeCode>)
    ensures |ts| == SumCounts(decls)
  {
    if decls == [] then []
    else
      var n := |decls| - 1;
      LocalTypes(decls[..n]) + Repeat(decls[n].count, decls[n].ty)
  }

  /** How the decoder writes the types of AST locals. */
  function EncodeLocals(ls: seq<A.LocalVar>): (ts: seq<D.ValueTypeCode>)
    ensures |ts| == |ls|
    ensures forall i :: 0 <= i < |ls| ==> ts[i] == EncodeValType(ls[i].valType)
  {
    seq(|ls|, i requires 0 <= i < |ls| => EncodeValType(ls[i].valType))
  }

  lemma EncodeLocalsAppend(init: seq<A.LocalVar>, n: nat, t: A.ValType)
    ensures EncodeLocals(init + Repeat(n, A.LocalVar(t))) == EncodeLocals(init) + Repeat(n, EncodeValType(t))
  {
  }

  lemma EncodeLocalsInjective(xs: seq<A.LocalVar>, ys: seq<A.LocalVar>)
    requires EncodeLocals(xs) == EncodeLocals(ys)
    ensures xs == ys
  {
    assert |xs| == |ys|;
    forall i | 0 <= i < |xs| ensures xs[i] == ys[i] {
      assert EncodeLocals(xs)[i] == EncodeLocals(ys)[i];
      ConvertTyEncodeValType(xs[i].valType);
      ConvertTyEncodeValType(ys[i].valType);
    }
  }

  /** The locals loop of `parse_body`: `count` locals of each declaration,
      each converted with `convert_ty`. A declaration with count 0 converts
      nothing, so its type is never checked. */
  function ExpandLocals(decls: seq<D.LocalDecl>): (r: Result<seq<A.LocalVar>>)
    ensures r.Ok? ==> |r.value| == SumCounts(decls)
    decreases |decls|
  {
    if decls == [] then Ok([])
    else
      var n := |decls| - 1;
      match ExpandLocals(decls[..n])
      case Err(e) => Err(e)
      case Ok(init) =>
        if decls[n].count == 0 then Ok(init)
        else
          match ConvertTy(decls[n].ty)
          case Err(e) => Err(e)
          case Ok(t) => Ok(init + Repeat(decls[n].count, A.LocalVar(t)))
  }

  /** The locals convert exactly when every declaration with a nonzero count
      has a 1.0 value type. */
  lemma {:induction false} ExpandLocalsOk(decls: seq<D.LocalDecl>)
    ensures ExpandLocals(decls).Ok? <==>
            forall i :: 0 <= i < |decls| && decls[i].count > 0 ==> IsMvpValueType(decls[i].ty)
    decreases |decls|
  {
    if decls != [] {
      var n := |decls| - 1;
      ExpandLocalsOk(decls[..n]);
      assert forall i :: 0 <= i < n ==> decls[..n][i] == decls[i];
    }
  }

  /** The converted locals, written back as type codes, are the run-length
      expansion of the declarations: as many locals as the counts add up to,
      each declaration's type repeated contiguously, in declaration order. */
  lemma {:induction false} ExpandLocalsTypes(decls: seq<D.LocalDecl>)
    requires ExpandLocals(decls).Ok?
    ensures EncodeLocals(ExpandLocals(decls).value) == LocalTypes(decls)
    decreases |decls|
  {
    if decls != [] {
      var n := |decls| - 1;
      ExpandLocalsTypes(decls[..n]);
      var init := ExpandLocals(decls[..n]).value;
      if decls[n].count == 0 {
        assert LocalTypes(decls) == LocalTypes(decls[..n]);
      } else {
        var t := ConvertTy(decls[n].ty).value;
        EncodeLocalsAppend(init, decls[n].count, t);
        assert EncodeValType(t) == decls[n].ty;
      }
    }
  }

  /** A failing locals loop fails with the error of a declaration with a
      nonzero count whose type does not convert, all earlier such
      declarations converting. */
  lemma {:induction false} ExpandLocalsError(decls: seq<D.LocalDecl>)
    requires ExpandLocals(decls).Err?
    ensures exists k :: 0 <= k < |decls| && decls[k].count > 0 && ConvertTy(decls[k].ty) == Err(ExpandLocals(decls).error) &&
                        forall j :: 0 <= j < k && decls[j].count > 0 ==> IsMvpValueType(decls[j].ty)
    decreases |decls|
  {
    var n := |decls| - 1;
    assert forall i :: 0 <= i < n ==> decls[..n][i] == decls[i];
    ExpandLocalsOk(decls[..n]);
    if ExpandLocals(decls[..n]).Err? {
      ExpandLocalsError(decls[..n]);
      var k :| 0 <= k < n && decls[..n][k].count > 0 && ConvertTy(decls[..n][k].ty) == Err(ExpandLocals(decls[..n]).error) &&
               forall j :: 0 <= j < k && decls[..n][j].count > 0 ==> IsMvpValueType(decls[..n][j].ty);
      assert decls[k].count > 0;
    } else {
      assert decls[n].count > 0 && ConvertTy(decls[n].ty).Err?;
    }
  }

  /** The error of the locals loop is that of the first declaration with a
      nonzero count whose type does not convert. */
  lemma ExpandLocalsFirstError(decls: seq<D.LocalDecl>, d: nat)
    requires d < |decls| && decls[d].count > 0 && !IsMvpValueType(decls[d].ty)
    requires forall j :: 0 <= j < d && decls[j].count > 0 ==> IsMvpValueType(decls[j].ty)
    ensures ExpandLocals(decls) == Err(ConvertTy(decls[d].ty).error)
  {
    var r := ExpandLocals(decls);
    ExpandLocalsOk(decls);
    assert r.Err?;
    ExpandLocalsError(decls);
    var k :| 0 <= k < |decls| && decls[k].count > 0 && ConvertTy(decls[k].ty) == Err(r.error) &&
             forall j :: 0 <= j < k && decls[j].count > 0 ==> IsMvpValueType(decls[j].ty);
    assert k == d;
  }

  lemma {:induction false} SumCountsMonotone(decls: seq<D.LocalDecl>, a: nat, b: nat)
    requires a <= b <= |decls|
    ensures SumCounts(decls[..a]) <= SumCounts(decls[..b])
    decreases b
  {
    if a < b {
      assert decls[..b][..b - 1] == decls[..b - 1];
      SumCountsMonotone(decls, a, b - 1);
    }
  }

  /** Local `SumCounts(decls[..i]) + j`, for `j` below the count of
      declaration `i`, has the type of declaration `i`: the declarations'
      locals are numbered consecutively, in order. */
  lemma {:induction false} LocalTypesAt(decls: seq<D.LocalDecl>, i: nat, j: nat)
    requires i < |decls| && j < decls[i].count
    ensures SumCounts(decls[..i]) + j < |LocalTypes(decls)|
    ensures LocalTypes(decls)[SumCounts(decls[..i]) + j] == decls[i].ty
    decreases |decls|
  {
    var n := |decls| - 1;
    assert decls[..n] == decls[..n][..n];
    if i == n {
    } else {
      assert decls[..n][..i] == decls[..i];
      assert decls[..n][..i + 1] == decls[..i + 1];
      assert decls[..i + 1][..i] == decls[..i];
      SumCountsMonotone(decls[..n], i + 1, n);
      LocalTypesAt(decls[..n], i, j);
    }
  }

  /** `parse_body` on a type-table value: the locals first, then the operators. */
  function ParseBodySpec(body: D.FunctionBody, types: TypeTable): (r: Result<A.Code>)
    ensures r.Ok? ==> |r.value.locals| == SumCounts(body.locals) && |r.value.body| == |body.operators|
  {
    var locals :- ExpandLocals(body.locals);
    var instrs :- ConvertOps(body.operators, types);
    Ok(A.Code(locals, instrs))
  }

  /** A body converts exactly when its locals and its operators do; a locals
      error is reported before an operator error; the converted body holds
      the run-length expansion of the local declarations and one instruction
      per operator, in order. */
  lemma ParseBodyMeaning(body: D.FunctionBody, types: TypeTable)
    ensures ParseBodySpec(body, types).Ok? <==> ExpandLocals(body.locals).Ok? && ConvertOps(body.operators, types).Ok?
    ensures ExpandLocals(body.locals).Err? ==> ParseBodySpec(body, types) == Err(ExpandLocals(body.locals).error)
    ensures ExpandLocals(body.locals).Ok? && ConvertOps(body.operators, types).Err? ==>
              ParseBodySpec(body, types) == Err(ConvertOps(body.operators, types).error)
    ensures ParseBodySpec(body, types).Ok? ==>
              var code := ParseBodySpec(body, types).value;
              EncodeLocals(code.locals) == LocalTypes(body.locals) &&
              |code.body| == |body.operators| &&
              forall i :: 0 <= i < |body.operators| ==> Ok(code.body[i]) == ConvertInstr(body.operators[i], types)
  {
    if ExpandLocals(body.locals).Ok? {
      ExpandLocalsTypes(body.locals);
    }
  }

  /** The locals loop of `parse_body`: for each declaration, `count` times
      `convert_ty` and a push. */
  method ExpandLocalDecls(decls: seq<D.LocalDecl>) returns (r: Result<seq<A.LocalVar>>)
    ensures r == ExpandLocals(decls)
  {
    var locals: seq<A.LocalVar> := [];
    var d := 0;
    while d < |decls|
      invariant 0 <= d <= |decls|
      invariant ExpandLocals(decls[..d]) == Ok(locals)
    {
      var decl := decls[d];
      assert decls[..d + 1][..d] == decls[..d] && decls[..d + 1][d] == decl;
      ghost var before := locals;
      var k: nat := 0;
      while k < decl.count
        invariant k <= decl.count
        invariant k == 0 ==> locals == before
        invariant k > 0 ==> ConvertTy(decl.ty).Ok? && locals == before + Repeat(k, A.LocalVar(ConvertTy(decl.ty).value))
      {
        var t := ConvertTy(decl.ty);
        if t.Err? {
          assert forall j :: 0 <= j < d ==> decls[..d][j] == decls[j];
          ExpandLocalsOk(decls[..d]);
          ExpandLocalsFirstError(decls, d);
          return Err(t.error);
        }
        assert Repeat(k + 1, A.LocalVar(t.value)) == Repeat(k, A.LocalVar(t.value)) + [A.LocalVar(t.value)];
        locals := locals + [A.LocalVar(t.value)];
        k := k + 1;
      }
      d := d + 1;
    }
    assert decls[..|decls|] == decls;
    return Ok(locals);
  }

  /** The operator loop of `parse_body`: `convert_instr` and a push per operator. */
  method ConvertOperators(ops: seq<D.Operator>, types: Types) returns (r: Result<seq<A.Instr>>)
    ensures r == ConvertOps(ops, types.table)
  {
    var instrs: seq<A.Instr> := [];
    var i := 0;
    while i < |ops|
      invariant 0 <= i <= |ops|
      invariant ConvertOps(ops[..i], types.table) == Ok(instrs)
    {
      assert ops[..i + 1][..i] == ops[..i] && ops[..i + 1][i] == ops[i];
      var instr := ConvertOperator(ops[i], types);
      if instr.Err? {
        assert forall j :: 0 <= j < i ==> ops[..i][j] == ops[j];
        ConvertOpsFirstError(ops, i, types.table);
        return Err(instr.error);
      }
      instrs := instrs + [instr.value];
      i := i + 1;
    }
    assert ops[..|ops|] == ops;
    return Ok(instrs);
  }

  /** `parse_body`: the locals, then the operators, returning at the first error. */
  method ParseBody(body: D.FunctionBody, types: Types) returns (r: Result<A.Code>)
    ensures r == ParseBodySpec(body, types.table)
  {
    var locals :- ExpandLocalDecls(body.locals);
    var instrs :- ConvertOperators(body.operators, types);
    return Ok(A.Code(locals, instrs));
  }
}
