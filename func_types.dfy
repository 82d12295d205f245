/** The `Types` wrapper around the converted type section: a three-state
    table (no type section yet, sized, filled) that rejects a second type
    section, rejects additions and lookups before the type section, and
    bounds-checks lookups. */
module FuncTypes {
  import opened Base
  import A = Ast
  import D = Decoded
  import opened Conversions

  /** The value held by `Types`: `None` before the type section, then the
      function types converted so far. */
  type TypeTable = Option<seq<A.FunctionType>>

  /** `Types::get` on a table value. */
  function Lookup(t: TypeTable, idx: u32): (r: Result<A.FunctionType>)
    ensures t.None? ==> r == Err(MissingTypeSection)
    ensures t.Some? ==> (r.Ok? <==> idx < |t.value|)
    ensures t.Some? && idx < |t.value| ==> r == Ok(t.value[idx])
    ensures t.Some? && idx >= |t.value| ==> r == Err(IndexOutOfBounds(FunctionTypeSpace, idx))
  {
    match t
    case None => Err(MissingTypeSection)
    case Some(tys) => if idx < |tys| then Ok(tys[idx]) else Err(IndexOutOfBounds(FunctionTypeSpace, idx))
  }

  /** `Types::add` on a table value: the missing-section check comes before
      the conversion, and a failed conversion leaves the table as it was. */
  function AddType(t: TypeTable, f: D.FuncType): (r: Result<TypeTable>)
    ensures t.None? ==> r == Err(MissingTypeSection)
    ensures t.Some? ==> (r.Ok? <==> ConvertFuncTy(f).Ok?)
    ensures t.Some? && ConvertFuncTy(f).Err? ==> r == Err(ConvertFuncTy(f).error)
    ensures r.Ok? ==> r.value.Some? && r.value.value == t.value + [ConvertFuncTy(f).value]
  {
    match t
    case None => Err(MissingTypeSection)
    case Some(tys) =>
      var ty :- ConvertFuncTy(f);
      Ok(Some(tys + [ty]))
  }

  /** One entry of the type section: only function types are supported. */
  function TypeDefEntry(t: TypeTable, d: D.TypeDef): (r: Result<TypeTable>)
    ensures d.FuncDef? ==> r == AddType(t, d.funcType)
    ensures !d.FuncDef? ==> r == Err(Unsupported(ModuleLinking))
  {
    match d
    case FuncDef(f) => AddType(t, f)
    case InstanceDef => Err(Unsupported(ModuleLinking))
    case ModuleDef => Err(Unsupported(ModuleLinking))
  }

  /** The type section on a table value: a second type section fails; the
      first one sizes the table and adds its entries in order. */
  function TypeSectionSpec(t: TypeTable, defs: seq<D.TypeDef>): (r: Result<TypeTable>)
    ensures r.Ok? ==> t.None? && r.value.Some? && |r.value.value| == |defs|
  {
    if t.Some? then Err(DuplicateTypeSection)
    else
      AddAllAppends([], defs);
      Fold(TypeDefEntry, Some([]), defs)
  }

  /** The additions to a sized table succeed exactly when every entry is a
      function type that converts. */
  lemma {:induction false} AddAllOk(acc: seq<A.FunctionType>, defs: seq<D.TypeDef>)
    ensures Fold(TypeDefEntry, Some(acc), defs).Ok? <==>
            forall i :: 0 <= i < |defs| ==> defs[i].FuncDef? && ConvertFuncTy(defs[i].funcType).Ok?
    decreases |defs|
  {
    if defs != [] {
      var d := defs[0];
      if d.FuncDef? && ConvertFuncTy(d.funcType).Ok? {
        var acc1 := acc + [ConvertFuncTy(d.funcType).value];
        assert TypeDefEntry(Some(acc), d) == Ok(Some(acc1));
        AddAllOk(acc1, defs[1..]);
        assert forall i :: 1 <= i < |defs| ==> defs[i] == defs[1..][i - 1];
      } else {
        assert Fold(TypeDefEntry, Some(acc), defs).Err?;
      }
    }
  }

  /** Successful additions to a sized table append the entries' converted
      function types in order. */
  lemma {:induction false} AddAllContents(acc: seq<A.FunctionType>, defs: seq<D.TypeDef>)
    requires forall i :: 0 <= i < |defs| ==> defs[i].FuncDef? && ConvertFuncTy(defs[i].funcType).Ok?
    ensures Fold(TypeDefEntry, Some(acc), defs).Ok?
    ensures var t := Fold(TypeDefEntry, Some(acc), defs).value;
            t.Some? && |t.value| == |acc| + |defs| && t.value[..|acc|] == acc &&
            forall i :: 0 <= i < |defs| ==> Ok(t.value[|acc| + i]) == ConvertFuncTy(defs[i].funcType)
    decreases |defs|
  {
    if defs != [] {
      var d := defs[0];
      var r0 := TypeDefEntry(Some(acc), d);
      assert d.FuncDef? && ConvertFuncTy(d.funcType).Ok?;
      assert forall i :: 1 <= i < |defs| ==> defs[i] == defs[1..][i - 1];
      var acc1 := acc + [ConvertFuncTy(d.funcType).value];
      assert r0 == Ok(Some(acc1));
      assert Fold(TypeDefEntry, Some(acc), defs) == Fold(TypeDefEntry, Some(acc1), defs[1..]);
      AddAllContents(acc1, defs[1..]);
      var t := Fold(TypeDefEntry, Some(acc), defs).value;
      assert t.value[..|acc1|] == acc1;
      assert t.value[..|acc|] == acc1[..|acc|];
      forall i | 0 <= i < |defs| ensures Ok(t.value[|acc| + i]) == ConvertFuncTy(defs[i].funcType) {
        if i == 0 {
          assert t.value[|acc|] == acc1[|acc|];
        } else {
          assert defs[i] == defs[1..][i - 1];
          assert t.value[|acc| + i] == t.value[|acc1| + (i - 1)];
        }
      }
    }
  }

  /** Adding entries to a sized table appends their converted function types
      in order; the additions succeed exactly when every entry is a function
      type that converts. */
  lemma AddAllAppends(acc: seq<A.FunctionType>, defs: seq<D.TypeDef>)
    ensures Fold(TypeDefEntry, Some(acc), defs).Ok? <==>
            forall i :: 0 <= i < |defs| ==> defs[i].FuncDef? && ConvertFuncTy(defs[i].funcType).Ok?
    ensures Fold(TypeDefEntry, Some(acc), defs).Ok? ==>
              var t := Fold(TypeDefEntry, Some(acc), defs).value;
              t.Some? && |t.value| == |acc| + |defs| && t.value[..|acc|] == acc &&
              forall i :: 0 <= i < |defs| ==> Ok(t.value[|acc| + i]) == ConvertFuncTy(defs[i].funcType)
  {
    AddAllOk(acc, defs);
    if forall i :: 0 <= i < |defs| ==> defs[i].FuncDef? && ConvertFuncTy(defs[i].funcType).Ok? {
      AddAllContents(acc, defs);
    }
  }

  /** After a (first) type section, `get(i)` returns the i-th entry's
      converted function type, and an index at or beyond the section's length
      is an index error. */
  lemma TypeSectionLookup(defs: seq<D.TypeDef>, idx: u32)
    requires TypeSectionSpec(None, defs).Ok?
    ensures idx < |defs| ==> defs[idx].FuncDef? && Lookup(TypeSectionSpec(None, defs).value, idx) == ConvertFuncTy(defs[idx].funcType)
    ensures idx >= |defs| ==> Lookup(TypeSectionSpec(None, defs).value, idx) == Err(IndexOutOfBounds(FunctionTypeSpace, idx))
  {
    AddAllAppends([], defs);
  }

  /** The table the converter threads through a module. */
  class Types {
    var table: TypeTable

    /** `Types::none`: the state before the type section. */
    constructor ()
      ensures table == None
    {
      table := None;
    }

    /** `Types::set_capacity`: the table is replaced by an empty one before the
        previous state is checked, so a duplicate type section fails AND
        empties the table. `count` is only a capacity hint. */
    method SetCapacity(count: nat) returns (r: Result<()>)
      modifies this
      ensures table == Some([])
      ensures r == if old(table).Some? then Err(DuplicateTypeSection) else Ok(())
    {
      var prev := table;
      table := Some([]);
      if prev.Some? {
        return Err(DuplicateTypeSection);
      }
      return Ok(());
    }

    /** `Types::add`: appends the converted type; on an error nothing changes. */
    method Add(f: D.FuncType) returns (r: Result<()>)
      modifies this
      ensures old(table).None? ==> r == Err(MissingTypeSection) && table == old(table)
      ensures old(table).Some? && ConvertFuncTy(f).Err? ==> r == Err(ConvertFuncTy(f).error) && table == old(table)
      ensures old(table).Some? && ConvertFuncTy(f).Ok? ==> r == Ok(()) && table == Some(old(table).value + [ConvertFuncTy(f).value])
    {
      if table.None? {
        return Err(MissingTypeSection);
      }
      var ty :- ConvertFuncTy(f);
      table := Some(table.value + [ty]);
      return Ok(());
    }

    /** `Types::get`: bounds-checked lookup, failing before the type section. */
    method Get(idx: u32) returns (r: Result<A.FunctionType>)
      ensures r == Lookup(table, idx)
    {
      if table.None? {
        return Err(MissingTypeSection);
      }
      if idx < |table.value| {
        return Ok(table.value[idx]);
      }
      return Err(IndexOutOfBounds(FunctionTypeSpace, idx));
    }

    /** The type section: `set_capacity`, then `add` for each entry, stopping
        at the first error. On success the table is the pure section result. */
    method TypeSection(defs: seq<D.TypeDef>) returns (r: Result<()>)
      modifies this
      ensures r.Ok? <==> TypeSectionSpec(old(table), defs).Ok?
      ensures r.Ok? ==> table == TypeSectionSpec(old(table), defs).value
      ensures r.Err? ==> r.error == TypeSectionSpec(old(table), defs).error
    {
      var _ :- SetCapacity(|defs|);
      var i := 0;
      while i < |defs|
        invariant 0 <= i <= |defs|
        invariant old(table).None? && table.Some?
        invariant Fold(TypeDefEntry, Some([]), defs) == Fold(TypeDefEntry, table, defs[i..])
      {
        assert defs[i..][0] == defs[i] && defs[i..][1..] == defs[i + 1..];
        match defs[i] {
          case FuncDef(f) =>
            var _ :- Add(f);
          case InstanceDef =>
            return Err(Unsupported(ModuleLinking));
          case ModuleDef =>
            return Err(Unsupported(ModuleLinking));
        }
        i := i + 1;
      }
      return Ok(());
    }
  }

  /** A second type section is rejected, and because the table was already
      replaced by an empty one, the types of the first section are gone. */
  method DuplicateTypeSectionScenario(f: D.FuncType) returns (first: Result<()>, added: Result<()>, second: Result<()>, lookup: Result<A.FunctionType>)
    requires ConvertFuncTy(f).Ok?
    ensures first == Ok(()) && added == Ok(())
    ensures second == Err(DuplicateTypeSection)
    ensures lookup == Err(IndexOutOfBounds(FunctionTypeSpace, 0))
  {
    var types := new Types();
    first := types.SetCapacity(1);
    added := types.Add(f);
    second := types.SetCapacity(1);
    lookup := types.Get(0);
  }
}
