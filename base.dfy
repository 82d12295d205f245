/** Fixed-width integers, Option, the errors raised while converting a decoded
    WebAssembly module into the high-level AST, the failure-compatible Result
    that carries them, and the "for each entry, stop at the first error" loop
    the converter uses for every section. */
module Base {

  type u8 = x: int | 0 <= x < 0x100
  type u32 = x: int | 0 <= x < 0x1_0000_0000
  type u64 = x: int | 0 <= x < 0x1_0000_0000_0000_0000
  type i32 = x: int | -0x8000_0000 <= x < 0x8000_0000
  type i64 = x: int | -0x8000_0000_0000_0000 <= x < 0x8000_0000_0000_0000
  type byte = u8

  const U32_LIMIT: int := 0x1_0000_0000

  datatype Option<+T> = None | Some(value: T)

  /** WebAssembly proposals the converter recognises but does not support
      (see https://webassembly.org/roadmap/). */
  datatype WasmExtension =
    | NontrappingFloatToInt
    | SignExtensionOps
    | MultiValue
    | ReferenceTypes
    | BulkMemoryOperations
    | Simd
    | ThreadsAtomics
    | Memory64
    | ExceptionHandling
    | TailCalls
    | TypeImports
    | MultiMemory
    | ModuleLinking

  /** The index space an out-of-range index was looked up in
      (the type parameter of the source's IndexError). */
  datatype IndexSpace = FunctionTypeSpace | FunctionSpace | TableSpace | MemorySpace | GlobalSpace

  datatype Error =
    | Unsupported(extension: WasmExtension)
    | IndexOutOfBounds(space: IndexSpace, index: nat)
    | DuplicateTypeSection
    | MissingTypeSection
    | DuplicateModuleName
    | TableElementTypeMismatch
    | UnknownSection

  /** The converter's `Result<T, Box<dyn Error>>`, usable with `:-`. */
  datatype Result<+T> = Ok(value: T) | Err(error: Error) {
    predicate IsFailure() { Err? }

    function PropagateFailure<U>(): Result<U>
      requires Err?
    {
      Err(error)
    }

    function Extract(): T
      requires Ok?
    {
      value
    }
  }

  /** Applies `step` to each entry in order, threading the state and stopping
      at the first entry whose step fails. */
  function Fold<S, X>(step: (S, X) -> Result<S>, s: S, xs: seq<X>): Result<S>
    decreases |xs|
  {
    if xs == [] then Ok(s)
    else
      match step(s, xs[0])
      case Err(e) => Err(e)
      case Ok(s1) => Fold(step, s1, xs[1..])
  }

  /** The imperative form of every `for _ in 0..count { let e = reader.read()?; ... }`
      section loop: one pass over the entries, returning at the first error. */
  method RunEntries<S, X>(step: (S, X) -> Result<S>, s: S, xs: seq<X>) returns (r: Result<S>)
    ensures r == Fold(step, s, xs)
  {
    var cur := s;
    var i := 0;
    while i < |xs|
      invariant 0 <= i <= |xs|
      invariant Fold(step, s, xs) == Fold(step, cur, xs[i..])
    {
      assert xs[i..][0] == xs[i] && xs[i..][1..] == xs[i + 1..];
      var next := step(cur, xs[i]);
      if next.Err? {
        return Err(next.error);
      }
      cur := next.value;
      i := i + 1;
    }
    return Ok(cur);
  }

  /** Folding over a concatenation folds over the first part, then over the
      second part from the state the first part left. */
  lemma {:induction false} FoldAppend<S, X>(step: (S, X) -> Result<S>, s: S, xs: seq<X>, ys: seq<X>)
    ensures Fold(step, s, xs + ys) ==
            match Fold(step, s, xs)
            case Err(e) => Err(e)
            case Ok(s1) => Fold(step, s1, ys)
    decreases |xs|
  {
    if xs == [] {
      assert xs + ys == ys;
    } else {
      assert (xs + ys)[0] == xs[0];
      assert (xs + ys)[1..] == xs[1..] + ys;
      match step(s, xs[0])
      case Err(e) =>
      case Ok(s1) => FoldAppend(step, s1, xs[1..], ys);
    }
  }

  /** A fold over a concatenation that succeeds went through a successful
      fold over the first part. */
  lemma FoldAppendOk<S, X>(step: (S, X) -> Result<S>, s: S, xs: seq<X>, ys: seq<X>)
    requires Fold(step, s, xs + ys).Ok?
    ensures Fold(step, s, xs).Ok? && Fold(step, s, xs + ys) == Fold(step, Fold(step, s, xs).value, ys)
  {
    FoldAppend(step, s, xs, ys);
  }

  /** The fold fails exactly when some entry's step fails from the state the
      entries before it produced; the error is that first failing step's. */
  lemma {:induction false} FoldFirstError<S, X>(step: (S, X) -> Result<S>, s: S, xs: seq<X>, k: nat)
    requires k < |xs|
    requires Fold(step, s, xs[..k]).Ok?
    requires step(Fold(step, s, xs[..k]).value, xs[k]).Err?
    ensures Fold(step, s, xs) == Err(step(Fold(step, s, xs[..k]).value, xs[k]).error)
  {
    assert xs == xs[..k] + xs[k..];
    FoldAppend(step, s, xs[..k], xs[k..]);
    assert xs[k..][0] == xs[k];
  }

  /** A property every successful step keeps holds after a successful fold. */
  lemma {:induction false} FoldPreserves<S, X>(step: (S, X) -> Result<S>, inv: S -> bool, s: S, xs: seq<X>)
    requires inv(s)
    requires forall s1: S, x: X :: inv(s1) && step(s1, x).Ok? ==> inv(step(s1, x).value)
    ensures Fold(step, s, xs).Ok? ==> inv(Fold(step, s, xs).value)
    decreases |xs|
  {
    if xs != [] && step(s, xs[0]).Ok? {
      FoldPreserves(step, inv, step(s, xs[0]).value, xs[1..]);
    }
  }
}
